/**
 * The Room product table (storage/room/ProductDao.kt over the entity of
 * storage/room/ProductRoom.kt): a table keyed by (productName, storeId).
 * Every call raises when the database cannot be used (`faulty`); a plain
 * `@Insert` raises on a key that is already taken and, running in one
 * transaction, then stores nothing of its batch.
 */
module ProductStorage {
  import opened Results
  import opened Model

  /** The table's primary key. */
  type Key = (string, int)

  /** A `ProductRoom` row object. */
  type Row = p: Product | p.ProductRoom? witness ProductRoom("", 0, None, 0.0, "", false, None)

  /** The maximum number of rows `getBestDiscountProducts` yields (`LIMIT 100`). */
  const BestDiscountLimit: nat := 100

  /** A row with a real discount: the `WHERE` of `getBestDiscountProducts`. */
  predicate HasDiscount(p: Product) {
    p.originalPrice.Some? && p.originalPrice.value > p.discountedPrice
  }

  /** `t` is a subset of `s` of exactly `n` elements. */
  predicate IsSubsetOfSize<T>(t: set<T>, s: set<T>, n: nat) {
    t <= s && |t| == n
  }

  lemma {:induction false} SubsetOfSizeExists<T>(s: set<T>, n: nat)
    requires n <= |s|
    ensures exists t :: IsSubsetOfSize(t, s, n)
  {
    if n == 0 {
      assert IsSubsetOfSize({}, s, 0);
    } else {
      var x :| x in s;
      SubsetOfSizeExists(s - {x}, n - 1);
      var t :| IsSubsetOfSize(t, s - {x}, n - 1);
      assert IsSubsetOfSize(t + {x}, s, n);
    }
  }

  /**
   * The outcome of the one-transaction `@Insert` of `batch` into `rows`:
   * `None` when some row's key is taken, by the table or by an earlier row of
   * the batch.
   */
  function InsertRows(rows: map<Key, Row>, batch: seq<Row>): Option<map<Key, Row>>
    decreases |batch|
  {
    if batch == [] then Some(rows)
    else if batch[0].Key() in rows then None
    else InsertRows(rows[batch[0].Key() := batch[0]], batch[1..])
  }

  /** No key of `batch` is taken in `rows` and no two rows of `batch` share a key. */
  predicate Insertable(rows: map<Key, Row>, batch: seq<Row>) {
    (forall i :: 0 <= i < |batch| ==> batch[i].Key() !in rows) &&
    (forall i, j :: 0 <= i < j < |batch| ==> batch[i].Key() != batch[j].Key())
  }

  /**
   * The insert succeeds exactly when the batch is `Insertable`; then the old
   * rows stay, each batch row is stored under its key, and nothing else is.
   */
  lemma {:induction false} InsertRowsSpec(rows: map<Key, Row>, batch: seq<Row>)
    decreases |batch|
    ensures InsertRows(rows, batch).Some? <==> Insertable(rows, batch)
    ensures InsertRows(rows, batch).Some? ==>
      var m := InsertRows(rows, batch).value;
      (forall k :: k in rows ==> k in m && m[k] == rows[k]) &&
      (forall i :: 0 <= i < |batch| ==> batch[i].Key() in m && m[batch[i].Key()] == batch[i]) &&
      (forall k :: k in m ==> k in rows || exists i :: 0 <= i < |batch| && batch[i].Key() == k)
  {
    if batch != [] {
      var x := batch[0];
      var rest := batch[1..];
      if x.Key() !in rows {
        var rows' := rows[x.Key() := x];
        InsertRowsSpec(rows', rest);
        if Insertable(rows', rest) {
          forall i, j | 0 <= i < j < |batch| ensures batch[i].Key() != batch[j].Key() {
            if i > 0 { assert batch[i] == rest[i - 1] && batch[j] == rest[j - 1]; }
            else { assert batch[j] == rest[j - 1]; }
          }
          var m := InsertRows(rows', rest).value;
          forall k | k in m ensures k in rows || exists i :: 0 <= i < |batch| && batch[i].Key() == k {
            if k !in rows' {
              var i :| 0 <= i < |rest| && rest[i].Key() == k;
              assert batch[i + 1].Key() == k;
            } else if k !in rows {
              assert batch[0].Key() == k;
            }
          }
          forall i | 0 <= i < |batch| ensures batch[i].Key() in m && m[batch[i].Key()] == batch[i] {
            if i > 0 { assert batch[i] == rest[i - 1]; }
          }
        } else if Insertable(rows, batch) {
          forall i | 0 <= i < |rest| ensures rest[i].Key() !in rows' {
            assert rest[i] == batch[i + 1];
          }
          forall i, j | 0 <= i < j < |rest| ensures rest[i].Key() != rest[j].Key() {
            assert rest[i] == batch[i + 1] && rest[j] == batch[j + 1];
          }
        }
      }
    }
  }

  /** The table once one store's rows are gone. */
  function WithoutStore(rows: map<Key, Row>, storeId: int): (r: map<Key, Row>)
    ensures forall k :: k in r <==> k in rows && k.1 != storeId
    ensures forall k :: k in r ==> r[k] == rows[k]
  {
    map k | k in rows && k.1 != storeId :: rows[k]
  }

  class ProductDao {
    var rows: map<Key, Row>
    /** The database cannot be used: every call raises. */
    var faulty: bool

    /** Each row is stored under its own key. */
    ghost predicate Valid()
      reads this
    {
      forall k :: k in rows ==> rows[k].Key() == k
    }

    constructor ()
      ensures Valid() && rows == map[] && !faulty
    {
      rows := map[];
      faulty := false;
    }

    /** `getProductById`: the row with that key, or `None`. */
    function GetProductById(storeId: int, productName: string): (r: Option<Row>)
      reads this
      requires Valid()
      ensures r.Some? <==> exists p :: p in rows.Values && p.productName == productName && p.storeId == storeId
      ensures r.Some? ==> r.value in rows.Values && r.value.productName == productName && r.value.storeId == storeId
      ensures r.Some? ==> forall p :: p in rows.Values && p.productName == productName && p.storeId == storeId ==> p == r.value
    {
      var k := (productName, storeId);
      if k in rows then Some(rows[k])
      else
        assert forall p :: p in rows.Values ==> p.Key() in rows && rows[p.Key()] == p;
        None
    }

    /** `getProductsByStore`: the rows of one store. */
    function GetProductsByStore(storeId: int): (r: set<Row>)
      reads this
      ensures forall p :: p in r <==> p in rows.Values && p.storeId == storeId
    {
      set k | k in rows && rows[k].storeId == storeId :: rows[k]
    }

    /** `getProductsByStoreAndCategory`: the rows of one store and one category. */
    function GetProductsByStoreAndCategory(storeId: int, category: string): (r: set<Row>)
      reads this
      ensures forall p :: p in r <==> p in rows.Values && p.storeId == storeId && p.category == category
    {
      set k | k in rows && rows[k].storeId == storeId && rows[k].category == category :: rows[k]
    }

    /** `getFavoriteProductsFlow`, as its current value: the favourite rows. */
    function GetFavoriteProducts(): (r: set<Row>)
      reads this
      ensures forall p :: p in r <==> p in rows.Values && p.isFavorite
    {
      set k | k in rows && rows[k].isFavorite :: rows[k]
    }

    /**
     * `getBestDiscountProducts`, as its current value: up to 100 discounted
     * rows, all of them when there are no more than 100.  Which 100 the
     * ordering by discount percentage picks is not modelled.
     */
    ghost function GetBestDiscountProducts(): (r: set<Row>)
      reads this
      ensures |r| <= BestDiscountLimit
      ensures forall p :: p in r ==> p in rows.Values && HasDiscount(p)
      ensures forall p :: p in rows.Values && HasDiscount(p) && p !in r ==> |r| == BestDiscountLimit
    {
      var all := set k | k in rows && HasDiscount(rows[k]) :: rows[k];
      if |all| <= BestDiscountLimit then all
      else
        SubsetOfSizeExists(all, BestDiscountLimit);
        var t :| IsSubsetOfSize(t, all, BestDiscountLimit);
        t
    }

    /**
     * `insertAllProducts`: one transaction; a taken key aborts it and
     * leaves the table as it was.
     */
    method InsertAllProducts(batch: seq<Row>) returns (c: Completion<()>)
      requires Valid()
      modifies this
      ensures Valid() && faulty == old(faulty)
      ensures old(faulty) ==> c == Thrown(StorageFailure) && rows == old(rows)
      ensures !old(faulty) && InsertRows(old(rows), batch).None? ==>
                c == Thrown(ConstraintViolation) && rows == old(rows)
      ensures !old(faulty) && InsertRows(old(rows), batch).Some? ==>
                c == Returned(()) && rows == InsertRows(old(rows), batch).value
    {
      if faulty {
        return Thrown(StorageFailure);
      }
      var staged := rows;
      var i := 0;
      while i < |batch|
        invariant 0 <= i <= |batch|
        invariant forall k :: k in staged ==> staged[k].Key() == k
        invariant InsertRows(rows, batch) == InsertRows(staged, batch[i..])
      {
        assert batch[i..][1..] == batch[i + 1..];
        var k := batch[i].Key();
        if k in staged {
          return Thrown(ConstraintViolation);
        }
        staged := staged[k := batch[i]];
        i := i + 1;
      }
      rows := staged;
      return Returned(());
    }

    /** `updateFavoriteStatus`: sets the flag of the one row with that key, if any. */
    method UpdateFavoriteStatus(storeId: int, productName: string, isFavorite: bool) returns (c: Completion<()>)
      requires Valid()
      modifies this`rows
      ensures Valid()
      ensures faulty ==> c == Thrown(StorageFailure) && rows == old(rows)
      ensures !faulty ==> c == Returned(()) && rows.Keys == old(rows).Keys
      ensures !faulty ==> forall k :: k in rows ==>
                rows[k] == if k == (productName, storeId) then old(rows)[k].(isFavorite := isFavorite) else old(rows)[k]
    {
      if faulty {
        return Thrown(StorageFailure);
      }
      var k := (productName, storeId);
      if k in rows {
        rows := rows[k := rows[k].(isFavorite := isFavorite)];
      }
      return Returned(());
    }

    /** `@Delete`: removes the row stored under the argument's key, if any. */
    method Delete(product: Row) returns (c: Completion<()>)
      requires Valid()
      modifies this`rows
      ensures Valid()
      ensures faulty ==> c == Thrown(StorageFailure) && rows == old(rows)
      ensures !faulty ==> c == Returned(()) && rows == old(rows) - {product.Key()}
    {
      if faulty {
        return Thrown(StorageFailure);
      }
      rows := rows - {product.Key()};
      return Returned(());
    }

    /** `deleteProductById` */
    method DeleteProductById(productName: string, storeId: int) returns (c: Completion<()>)
      requires Valid()
      modifies this`rows
      ensures Valid()
      ensures faulty ==> c == Thrown(StorageFailure) && rows == old(rows)
      ensures !faulty ==> c == Returned(()) && rows == old(rows) - {(productName, storeId)}
    {
      if faulty {
        return Thrown(StorageFailure);
      }
      rows := rows - {(productName, storeId)};
      return Returned(());
    }

    /** `deleteProductsByStoreType`: removes exactly the rows of one store. */
    method DeleteProductsByStoreType(storeId: int) returns (c: Completion<()>)
      requires Valid()
      modifies this`rows
      ensures Valid()
      ensures faulty ==> c == Thrown(StorageFailure) && rows == old(rows)
      ensures !faulty ==> c == Returned(()) && rows == WithoutStore(old(rows), storeId)
    {
      if faulty {
        return Thrown(StorageFailure);
      }
      rows := WithoutStore(rows, storeId);
      return Returned(());
    }

    /** `deleteAllProducts` */
    method DeleteAllProducts() returns (c: Completion<()>)
      requires Valid()
      modifies this`rows
      ensures Valid()
      ensures faulty ==> c == Thrown(StorageFailure) && rows == old(rows)
      ensures !faulty ==> c == Returned(()) && rows == map[]
    {
      if faulty {
        return Thrown(StorageFailure);
      }
      rows := map[];
      return Returned(());
    }
  }
}
