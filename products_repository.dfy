/**
 * repository/products/ProductsRepository.kt: forwards each call to the
 * product table, turning plain `Product`s into `ProductRoom` rows on insert
 * and every exception into `Result.Error(UnknownError(<fixed message>))`.
 */
module ProductsRepositories {
  import opened Results
  import opened Model
  import opened ProductStorage
  import opened Listing

  /** The `ProductRoom` built from a `Product` by `insertAllProducts`. */
  function ToRow(p: Product): (r: Row)
    ensures SameFields(r, p)
  {
    ProductRoom(p.productName, p.storeId, p.originalPrice, p.discountedPrice, p.category, p.isFavorite, p.json)
  }

  /** The seven fields of the two records agree. */
  predicate SameFields(a: Product, b: Product) {
    a.productName == b.productName && a.storeId == b.storeId && a.originalPrice == b.originalPrice &&
    a.discountedPrice == b.discountedPrice && a.category == b.category &&
    a.isFavorite == b.isFavorite && a.json == b.json
  }

  function ToRows(ps: seq<Product>): (rs: seq<Row>)
    ensures |rs| == |ps|
    ensures forall i :: 0 <= i < |ps| ==> SameFields(rs[i], ps[i]) && rs[i].Key() == ps[i].Key()
  {
    if ps == [] then [] else [ToRow(ps[0])] + ToRows(ps[1..])
  }

  /** The table after an `insertAllProducts` whose result is ignored: all of the batch, or nothing. */
  function AfterInsert(rows: map<Key, Row>, products: seq<Product>): map<Key, Row> {
    var m := InsertRows(rows, ToRows(products));
    if m.Some? then m.value else rows
  }

  /** The `try { …; Success } catch (e: Exception) { Error(UnknownError(message)) }` shape. */
  function Caught<T>(c: Completion<T>, message: string): (r: Result<T>)
    ensures c.Returned? <==> r.Success?
    ensures c.Returned? ==> r.data == c.result
    ensures c.Thrown? ==> r == Error(UnknownRepositoryError(message))
  {
    match c
    case Returned(v) => Success(v)
    case Thrown(_) => Error(UnknownRepositoryError(message))
  }

  /** A Room query flow: which rows it emits, read only when it is collected. */
  datatype ProductsFlow = AllProducts | StoreProducts(storeId: int)

  /** The rows `flow` emits while the table holds `rows`. */
  function Emits(flow: ProductsFlow, rows: map<Key, Row>): (r: set<Row>)
    ensures forall p :: p in r <==> p in rows.Values && (flow.StoreProducts? ==> p.storeId == flow.storeId)
  {
    match flow
    case AllProducts => rows.Values
    case StoreProducts(id) => set k | k in rows && rows[k].storeId == id :: rows[k]
  }

  class ProductsRepository {
    const dao: ProductDao

    constructor (dao: ProductDao)
      ensures this.dao == dao
    {
      this.dao := dao;
    }

    /** `getAllProducts` */
    method GetAllProducts() returns (r: Result<set<Row>>)
      ensures dao.faulty ==> r == Error(UnknownRepositoryError("Error getting all products"))
      ensures !dao.faulty ==> r.Success? && forall p :: p in r.data <==> p in dao.rows.Values
    {
      if dao.faulty {
        return Error(UnknownRepositoryError("Error getting all products"));
      }
      return Success(dao.rows.Values);
    }

    /**
     * `getAllProductsFlow`: Room builds the query flow without touching the
     * database, so the getter cannot fail; its emissions are every row.
     */
    method GetAllProductsFlow() returns (r: Result<ProductsFlow>)
      ensures r == Success(AllProducts)
      ensures forall p :: p in Emits(r.data, dao.rows) <==> p in dao.rows.Values
    {
      return Success(AllProducts);
    }

    /** `getProductsByStoreFlow`: cannot fail either; its emissions are the store's rows. */
    method GetProductsByStoreFlow(storeId: int) returns (r: Result<ProductsFlow>)
      ensures r == Success(StoreProducts(storeId))
      ensures forall p :: p in Emits(r.data, dao.rows) <==> p in dao.rows.Values && p.storeId == storeId
    {
      return Success(StoreProducts(storeId));
    }

    /**
     * Collecting a query flow: the query runs then, so an unusable database
     * throws to the collector; otherwise the emitted list holds each row the
     * flow selects, once, in an order the model leaves open.
     */
    method Collect(flow: ProductsFlow) returns (c: Completion<seq<Row>>)
      ensures dao.faulty ==> c == Thrown(StorageFailure)
      ensures !dao.faulty ==> c.Returned? && Distinct(c.result)
      ensures !dao.faulty ==> forall p :: p in c.result <==> p in Emits(flow, dao.rows)
    {
      if dao.faulty {
        return Thrown(StorageFailure);
      }
      var left := Emits(flow, dao.rows);
      var list: seq<Row> := [];
      while left != {}
        invariant Distinct(list)
        invariant forall p :: p in list ==> p !in left
        invariant forall p :: p in Emits(flow, dao.rows) <==> p in list || p in left
        decreases |left|
      {
        var p :| p in left;
        list := list + [p];
        left := left - {p};
      }
      return Returned(list);
    }

    /** `getProductById`: an absent key is `Success(None)`, not an error. */
    method GetProductById(storeId: int, productName: string) returns (r: Result<Option<Row>>)
      requires dao.Valid()
      ensures dao.faulty ==> r == Error(UnknownRepositoryError("Error getting product by id"))
      ensures !dao.faulty ==> r.Success?
      ensures !dao.faulty ==> (r.data.None? <==> (productName, storeId) !in dao.rows)
      ensures !dao.faulty && r.data.Some? ==> r.data.value == dao.rows[(productName, storeId)]
    {
      if dao.faulty {
        return Error(UnknownRepositoryError("Error getting product by id"));
      }
      var found := dao.GetProductById(storeId, productName);
      return Success(found);
    }

    /** `getProductsByStore` */
    method GetProductsByStore(storeId: int) returns (r: Result<set<Row>>)
      ensures dao.faulty ==> r == Error(UnknownRepositoryError("Error getting products by store"))
      ensures !dao.faulty ==> r.Success? && forall p :: p in r.data <==> p in dao.rows.Values && p.storeId == storeId
    {
      if dao.faulty {
        return Error(UnknownRepositoryError("Error getting products by store"));
      }
      return Success(dao.GetProductsByStore(storeId));
    }

    /** `getProductsByStoreAndCategory` */
    method GetProductsByStoreAndCategory(storeId: int, category: string) returns (r: Result<set<Row>>)
      ensures dao.faulty ==> r == Error(UnknownRepositoryError("Error getting products by store and category"))
      ensures !dao.faulty ==> r.Success? && forall p :: p in r.data <==>
                p in dao.rows.Values && p.storeId == storeId && p.category == category
    {
      if dao.faulty {
        return Error(UnknownRepositoryError("Error getting products by store and category"));
      }
      return Success(dao.GetProductsByStoreAndCategory(storeId, category));
    }

    /**
     * `insertAllProducts`: every product is stored as a row with all seven
     * of its fields; a taken key or an unusable database stores nothing and
     * yields the fixed error.
     */
    method InsertAllProducts(products: seq<Product>) returns (r: Result<()>)
      requires dao.Valid()
      modifies dao
      ensures dao.Valid() && dao.faulty == old(dao.faulty)
      ensures !r.Success? ==> r == Error(UnknownRepositoryError("Error inserting all products")) && dao.rows == old(dao.rows)
      ensures r.Success? <==> !old(dao.faulty) && Insertable(old(dao.rows), ToRows(products))
      ensures !old(dao.faulty) ==> dao.rows == AfterInsert(old(dao.rows), products)
      ensures r.Success? ==> forall k :: k in old(dao.rows) ==> k in dao.rows && dao.rows[k] == old(dao.rows)[k]
      ensures r.Success? ==> forall i :: 0 <= i < |products| ==>
                products[i].Key() in dao.rows && SameFields(dao.rows[products[i].Key()], products[i])
      ensures r.Success? ==> forall k :: k in dao.rows ==>
                k in old(dao.rows) || exists i :: 0 <= i < |products| && products[i].Key() == k
    {
      var rows := ToRows(products);
      InsertRowsSpec(dao.rows, rows);
      var c := dao.InsertAllProducts(rows);
      r := Caught(c, "Error inserting all products");
      if r.Success? {
        forall k | k in dao.rows ensures k in old(dao.rows) || exists i :: 0 <= i < |products| && products[i].Key() == k {
          if k !in old(dao.rows) {
            var i :| 0 <= i < |rows| && rows[i].Key() == k;
            assert products[i].Key() == k;
          }
        }
      }
    }

    /** `updateFavoriteStatus`: targets the row keyed by the product's name and store. */
    method UpdateFavoriteStatus(product: Product, isFavorite: bool) returns (r: Result<()>)
      requires dao.Valid()
      modifies dao
      ensures dao.Valid() && dao.faulty == old(dao.faulty)
      ensures r.Success? <==> !dao.faulty
      ensures !r.Success? ==> r == Error(UnknownRepositoryError("Error updating favorite status")) && dao.rows == old(dao.rows)
      ensures r.Success? ==> dao.rows.Keys == old(dao.rows).Keys
      ensures r.Success? ==> forall k :: k in dao.rows ==>
                dao.rows[k] == if k == product.Key() then old(dao.rows)[k].(isFavorite := isFavorite) else old(dao.rows)[k]
    {
      var c := dao.UpdateFavoriteStatus(product.storeId, product.productName, isFavorite);
      r := Caught(c, "Error updating favorite status");
    }

    /** `delete`: a plain `Product` fails the cast to `ProductRoom`. */
    method Delete(product: Product) returns (r: Result<()>)
      requires dao.Valid()
      modifies dao
      ensures dao.Valid() && dao.faulty == old(dao.faulty)
      ensures r.Success? <==> product.ProductRoom? && !dao.faulty
      ensures !r.Success? ==> r == Error(UnknownRepositoryError("Error deleting product")) && dao.rows == old(dao.rows)
      ensures r.Success? ==> dao.rows == old(dao.rows) - {product.Key()}
    {
      if !product.ProductRoom? {
        return Caught(Thrown(ClassCast), "Error deleting product");
      }
      var c := dao.Delete(product);
      r := Caught(c, "Error deleting product");
    }

    /** `deleteProductById` */
    method DeleteProductById(productName: string, storeId: int) returns (r: Result<()>)
      requires dao.Valid()
      modifies dao
      ensures dao.Valid() && dao.faulty == old(dao.faulty)
      ensures r.Success? <==> !dao.faulty
      ensures !r.Success? ==> r == Error(UnknownRepositoryError("Error deleting product by id")) && dao.rows == old(dao.rows)
      ensures r.Success? ==> dao.rows == old(dao.rows) - {(productName, storeId)}
    {
      var c := dao.DeleteProductById(productName, storeId);
      r := Caught(c, "Error deleting product by id");
    }

    /** `deleteProductsByStoreType`: drops exactly one store's rows. */
    method DeleteProductsByStoreType(storeId: int) returns (r: Result<()>)
      requires dao.Valid()
      modifies dao
      ensures dao.Valid() && dao.faulty == old(dao.faulty)
      ensures r.Success? <==> !dao.faulty
      ensures !r.Success? ==> r == Error(UnknownRepositoryError("Error deleting products by store type")) && dao.rows == old(dao.rows)
      ensures r.Success? ==> dao.rows == WithoutStore(old(dao.rows), storeId)
    {
      var c := dao.DeleteProductsByStoreType(storeId);
      r := Caught(c, "Error deleting products by store type");
    }

    /** `deleteAllProducts` */
    method DeleteAllProducts() returns (r: Result<()>)
      requires dao.Valid()
      modifies dao
      ensures dao.Valid() && dao.faulty == old(dao.faulty)
      ensures r.Success? <==> !dao.faulty
      ensures !r.Success? ==> r == Error(UnknownRepositoryError("Error deleting all products")) && dao.rows == old(dao.rows)
      ensures r.Success? ==> dao.rows == map[]
    {
      var c := dao.DeleteAllProducts();
      r := Caught(c, "Error deleting all products");
    }
  }
}
