/**
 * service/stores/CarrefourScraperService.kt: a Toggle store with no promo
 * code of its own.  Every retrieval deletes the CARREFOUR catalogue and
 * rebuilds it from the promotion search of each category, in the order of
 * `CarrefourCategory`.
 */
module CarrefourScrapers {
  import opened Results
  import opened Model
  import opened Text
  import opened ProductStorage
  import opened ProductsRepositories
  import opened Scraping

  /** One `CarrefourCategory` entry: id, display name and icon (the drawable's name). */
  datatype CarrefourCategory = CarrefourCategory(id: string, displayName: string, image: string)

  /** `CarrefourCategory.entries`, in declaration order. */
  const CarrefourCategories: seq<CarrefourCategory> := [
    CarrefourCategory("Acqua, succhi e bibite", "Acqua, Succhi e Bibite", "acqua_succhi_bibite"),
    CarrefourCategory("Animali", "Animali", "animali"),
    CarrefourCategory("Arredo Casa", "Arredo Casa", "arredo_casa"),
    CarrefourCategory("Articoli per bambini", "Articoli per Bambini", "articoli_bambini"),
    CarrefourCategory("Articoli per la casa", "Articoli per la Casa", "articoli_casa"),
    CarrefourCategory("Biciclette", "Biciclette", "biciclette"),
    CarrefourCategory("Birra e liquori", "Birra e Liquori", "birra_liquori"),
    CarrefourCategory("Carne", "Carne", "carne"),
    CarrefourCategory("Climatizzazione", "Climatizzazione", "climatizzazione"),
    CarrefourCategory("Condimenti e conserve", "Condimenti e Conserve", "condimenti_conserve"),
    CarrefourCategory("Cura casa", "Cura casa", "cura_casa"),
    CarrefourCategory("Cura persona", "Cura persona", "cura_persona"),
    CarrefourCategory("Dolci e prima colazione", "Dolci e Prima Colazione", "dolci_prima_colazione"),
    CarrefourCategory("Elettrodomestici cucina", "Elettrodomestici Cucina", "elettrodomestici_cucina"),
    CarrefourCategory("Elettrodomestici pulizia e stiro", "Elettrodomestici Pulizia e Stiro", "elettrodomestici_pulizia_stiro"),
    CarrefourCategory("Fai da te", "Fai da te", "fai_da_te"),
    CarrefourCategory("Frutta e verdura", "Frutta e Verdura", "frutta_verdura"),
    CarrefourCategory("Gastronomia", "Gastronomia", "gastronomia"),
    CarrefourCategory("Gelati e surgelati", "Gelati e Surgelati", "surgelati_gelati"),
    CarrefourCategory("Giocattoli", "Giocattoli", "articoli_bambini"),
    CarrefourCategory("Giochi da esterno", "Giochi da Esterno", "giochi_esterno"),
    CarrefourCategory("Pane e snack salati", "Pane e Snack Salati", "pane_snack_salati"),
    CarrefourCategory("Pasta, riso e farina", "Pasta, Riso e Farina", "pasta_riso_farina"),
    CarrefourCategory("Pesce", "Pesce", "pesce"),
    CarrefourCategory("Prima Infanzia", "Prima Infanzia", "prima_infanzia"),
    CarrefourCategory("Salumi e formaggi", "Salumi e Formaggi", "salumi_formaggi"),
    CarrefourCategory("Telefonia", "Telefonia", "telefonia"),
    CarrefourCategory("Uova, latte e latticini", "Uova, Latte e Latticini", "uova_latte_latticini"),
    CarrefourCategory("Vino", "Vino", "vino")
  ]

  /** `CarrefourCategory.idList` */
  function CarrefourCategoryIds(): (ids: seq<string>)
    ensures |ids| == |CarrefourCategories|
    ensures forall i :: 0 <= i < |ids| ==> ids[i] == CarrefourCategories[i].id
  {
    seq(|CarrefourCategories|, i requires 0 <= i < |CarrefourCategories| => CarrefourCategories[i].id)
  }

  /** The index of the first entry with id `category`, from `from` on. */
  function FirstWithId(category: string, from: nat): (r: Option<nat>)
    requires from <= |CarrefourCategories|
    ensures r.Some? ==> from <= r.value < |CarrefourCategories| && CarrefourCategories[r.value].id == category
    ensures r.Some? ==> forall i :: from <= i < r.value ==> CarrefourCategories[i].id != category
    ensures r.None? <==> forall i :: from <= i < |CarrefourCategories| ==> CarrefourCategories[i].id != category
    decreases |CarrefourCategories| - from
  {
    if from == |CarrefourCategories| then None
    else if CarrefourCategories[from].id == category then Some(from)
    else FirstWithId(category, from + 1)
  }

  /** `getIcon`: the image of the first entry with that id; no such entry raises `NoSuchElementException`. */
  function GetIcon(category: string): (c: Completion<string>)
    ensures c.Returned? <==> category in CarrefourCategoryIds()
    ensures c.Thrown? ==> c.crash == NoSuchElement
    ensures c.Returned? ==> (exists i :: 0 <= i < |CarrefourCategories| &&
                               CarrefourCategories[i].id == category && c.result == CarrefourCategories[i].image)
  {
    var i := FirstWithId(category, 0);
    if i.None? then
      assert category !in CarrefourCategoryIds();
      Thrown(NoSuchElement)
    else Returned(CarrefourCategories[i.value].image)
  }

  /** Two different entries never share an id, so the first match is the only one. */
  lemma CategoryIdsDistinct()
    ensures forall i, j :: 0 <= i < j < |CarrefourCategories| ==> CarrefourCategories[i].id != CarrefourCategories[j].id
  {
  }

  /** The icon of every entry is its own image. */
  lemma {:induction false} GetIconOfEntry(i: nat)
    requires i < |CarrefourCategories|
    ensures GetIcon(CarrefourCategories[i].id) == Returned(CarrefourCategories[i].image)
  {
    CategoryIdsDistinct();
    var f := FirstWithId(CarrefourCategories[i].id, 0);
    assert f.Some?;
    assert f.value == i;
  }

  const FetchErrorMessage: string := "Error while fetching data from Carrefour"

  /**
   * One entry of a category page's `productIds` array; the `list` prices are
   * `None` when JSON null, and `promotionInfo` is the promotion object's
   * text members.
   */
  datatype CarrefourItem = CarrefourItem(productName: string, brand: string,
                                         salesPrice: real, listPrice: Option<real>,
                                         unitSalesPrice: real, unitListPrice: Option<real>,
                                         promotionInfo: map<string, string>,
                                         discountPercentage: string)

  /** The site as the scraper sees it: the promotion search of one category. */
  type CarrefourWeb = string -> Response<seq<CarrefourItem>>

  /** An item can be read: a non-empty `promotionInfo` has a `name` and an `endDate` (else `getString` raises). */
  predicate Readable(item: CarrefourItem) {
    |item.promotionInfo| != 0 ==> "name" in item.promotionInfo && "endDate" in item.promotionInfo
  }

  /** The free-form `json` of a product: `put` of a null value leaves its key out. */
  function CarrefourJson(item: CarrefourItem): JsonObject
    requires Readable(item)
  {
    var base := map["brand" := JText(item.brand), "discountedUnitPrice" := JReal(item.unitSalesPrice),
                    "discountPercentage" := JText(item.discountPercentage)];
    var withUnit := if item.unitListPrice.Some? then base["originalUnitPrice" := JReal(item.unitListPrice.value)] else base;
    if |item.promotionInfo| != 0 then
      withUnit["promotionName" := JText(item.promotionInfo["name"])]
              ["promotionEndDate" := JText(item.promotionInfo["endDate"])]
    else withUnit
  }

  /** The product built from a readable item. */
  function CarrefourProduct(item: CarrefourItem, category: string): Product
    requires Readable(item)
  {
    Product(Trim(item.productName), Carrefour.Value(), item.listPrice, item.salesPrice, category, false,
            Some(CarrefourJson(item)))
  }

  /**
   * Each product has a trimmed name, the CARREFOUR id, the category id and
   * no favourite mark; its original price is absent exactly when `list` is
   * null, and it carries a promotion name and end date exactly when
   * `promotionInfo` is not empty.
   */
  lemma CarrefourProductSpec(item: CarrefourItem, category: string)
    requires Readable(item)
    ensures var p := CarrefourProduct(item, category);
      IsTrimmed(p.productName) && p.storeId == Carrefour.Value() && p.category == category && !p.isFavorite &&
      (p.originalPrice.None? <==> item.listPrice.None?) && p.discountedPrice == item.salesPrice &&
      p.json.Some? &&
      ("promotionName" in p.json.value <==> |item.promotionInfo| != 0) &&
      ("promotionEndDate" in p.json.value <==> |item.promotionInfo| != 0) &&
      ("originalUnitPrice" in p.json.value <==> item.unitListPrice.Some?)
  {
  }

  /** The batch of a page, or `None` when one of its items cannot be read. */
  function CarrefourBatch(items: seq<CarrefourItem>, category: string): Option<seq<Product>> {
    if forall j :: 0 <= j < |items| ==> Readable(items[j]) then
      Some(seq(|items|, j requires 0 <= j < |items| && Readable(items[j]) => CarrefourProduct(items[j], category)))
    else None
  }

  /** A category page: its batch, or `None` when reading it raises (its status is not looked at). */
  function CategoryPage(web: CarrefourWeb, category: string): Option<seq<Product>> {
    match web(category)
    case Raises => None
    case Responds(_, body) => if body.None? then None else CarrefourBatch(body.value, category)
  }

  /** The pages of `categories`, in order. */
  function PagesOf(web: CarrefourWeb, categories: seq<string>): (r: seq<Option<seq<Product>>>)
    ensures |r| == |categories|
    decreases |categories|
  {
    if categories == [] then []
    else PagesOf(web, categories[..|categories| - 1]) + [CategoryPage(web, categories[|categories| - 1])]
  }

  /** The `k`-th page is the page of the `k`-th category. */
  lemma {:induction false} PagesOfAt(web: CarrefourWeb, categories: seq<string>, k: nat)
    requires k < |categories|
    ensures PagesOf(web, categories)[k] == CategoryPage(web, categories[k])
    decreases |categories|
  {
    if k < |categories| - 1 {
      PagesOfAt(web, categories[..|categories| - 1], k);
    }
  }

  /** The pages of a pass: one per CARREFOUR category. */
  function Pages(web: CarrefourWeb): (r: seq<Option<seq<Product>>>)
    ensures |r| == |CarrefourCategories|
  {
    PagesOf(web, CarrefourCategoryIds())
  }

  /** What a CARREFOUR row written by a pass looks like. */
  predicate IsCarrefourRow(p: Product) {
    IsTrimmed(p.productName) && p.storeId == Carrefour.Value() && !p.isFavorite &&
    p.category in CarrefourCategoryIds()
  }

  /**
   * After a replacement pass the rows of other stores are as they were,
   * and every CARREFOUR row is one the pass built.  Conversely, when no two
   * products read share a name, every product read is stored.
   */
  lemma {:induction false} CatalogAfterPass(rows: map<Key, Row>, web: CarrefourWeb)
    ensures var after := ApplyBatches(WithoutStore(rows, Carrefour.Value()), ReadPrefix(Pages(web)));
      (forall k: Key :: k.1 != Carrefour.Value() ==> (k in after <==> k in rows) && (k in rows ==> after[k] == rows[k])) &&
      (forall k :: k in after && k.1 == Carrefour.Value() ==> IsCarrefourRow(after[k]))
    ensures DistinctKeys(ReadPrefix(Pages(web))) ==>
              AllStored(ApplyBatches(WithoutStore(rows, Carrefour.Value()), ReadPrefix(Pages(web))), ReadPrefix(Pages(web)))
  {
    var ids := CarrefourCategoryIds();
    var pages := Pages(web);
    var bs := ReadPrefix(pages);
    assert AllOfStore(bs, Carrefour.Value()) by {
      forall i, j | 0 <= i < |bs| && 0 <= j < |bs[i]| ensures bs[i][j].storeId == Carrefour.Value() {
        assert pages[i] == Some(bs[i]);
        PagesOfAt(web, ids, i);
        var items := web(ids[i]).body.value;
        CarrefourProductSpec(items[j], ids[i]);
      }
    }
    var base := WithoutStore(rows, Carrefour.Value());
    assert FreshFor(base, bs) by {
      assert AllOfStore(bs, Carrefour.Value());
    }
    ApplyBatchesSpec(base, bs, Carrefour.Value());
    var after := ApplyBatches(base, bs);
    forall k | k in after && k.1 == Carrefour.Value() ensures IsCarrefourRow(after[k]) {
      assert k !in base;
      var i, j :| 0 <= i < |bs| && 0 <= j < |bs[i]| && SameFields(after[k], bs[i][j]);
      assert pages[i] == Some(bs[i]);
      PagesOfAt(web, ids, i);
      var items := web(ids[i]).body.value;
      assert bs[i][j] == CarrefourProduct(items[j], ids[i]);
      CarrefourProductSpec(items[j], ids[i]);
    }
  }

  /** The products of one category page in page order, or `None` at the first item that cannot be read. */
  method BuildBatch(items: seq<CarrefourItem>, category: string) returns (batch: Option<seq<Product>>)
    ensures batch == CarrefourBatch(items, category)
  {
    var products := [];
    var i := 0;
    while i < |items|
      invariant 0 <= i <= |items|
      invariant |products| == i
      invariant forall j :: 0 <= j < i ==> Readable(items[j]) && products[j] == CarrefourProduct(items[j], category)
    {
      if !Readable(items[i]) {
        return None;
      }
      var product := CarrefourProduct(items[i], category);
      products := products + [product];
      i := i + 1;
    }
    assert products == CarrefourBatch(items, category).value;
    return Some(products);
  }

  class CarrefourScraperService {
    const products: ProductsRepository

    constructor (products: ProductsRepository)
      ensures this.products == products
    {
      this.products := products;
    }

    /** One category of the pass: its page's batch is inserted, with the result ignored, unless reading it or an item raises. */
    method InsertPage(web: CarrefourWeb, k: nat) returns (read: bool)
      requires k < |CarrefourCategories|
      requires products.dao.Valid() && !products.dao.faulty
      modifies products.dao
      ensures products.dao.Valid() && !products.dao.faulty
      ensures read <==> Pages(web)[k].Some?
      ensures products.dao.rows == if read then AfterInsert(old(products.dao.rows), Pages(web)[k].value)
                                   else old(products.dao.rows)
    {
      var ids := CarrefourCategoryIds();
      var category := ids[k];
      PagesOfAt(web, ids, k);
      var page := web(category);
      if page.Raises? || page.body.None? {
        return false;
      }
      var batch := BuildBatch(page.body.value, category);
      if batch.None? {
        return false;
      }
      var _ := products.InsertAllProducts(batch.value);
      return true;
    }

    /**
     * `getStoreDiscount`: deletes the CARREFOUR rows whatever the store, then
     * inserts each category's batch with the result ignored.  A full pass is
     * `Success(None)`: no promo code is ever reported.  Deleted rows are not
     * restored when a page raises.
     */
    method GetStoreDiscount(web: CarrefourWeb) returns (r: Result<Option<int>>)
      requires products.dao.Valid()
      modifies products.dao
      ensures products.dao.Valid() && products.dao.faulty == old(products.dao.faulty)
      ensures old(products.dao.faulty) ==>
                r == Error(UnknownRepositoryError("Error deleting products by store type")) &&
                products.dao.rows == old(products.dao.rows)
      ensures !old(products.dao.faulty) ==>
                products.dao.rows == ApplyBatches(WithoutStore(old(products.dao.rows), Carrefour.Value()), ReadPrefix(Pages(web))) &&
                r == if AllRead(Pages(web)) then Success(None) else ServiceLayerError(UnknownServiceError(FetchErrorMessage))
    {
      var deleted := products.DeleteProductsByStoreType(Carrefour.Value());
      if deleted.Error? {
        return Error(deleted.error);
      }
      ghost var base := products.dao.rows;
      ghost var pages := Pages(web);
      var k := 0;
      while k < |CarrefourCategories|
        invariant 0 <= k <= |CarrefourCategories|
        invariant products.dao.Valid() && !products.dao.faulty
        invariant forall j :: 0 <= j < k ==> pages[j].Some?
        invariant products.dao.rows == ApplyBatches(base, ReadPrefix(pages[..k]))
      {
        var read := InsertPage(web, k);
        if !read {
          ReadPrefixStops(pages, k);
          return ServiceLayerError(UnknownServiceError(FetchErrorMessage));
        }
        ApplyReadPrefixExtend(base, pages, k);
        k := k + 1;
      }
      assert pages[..k] == pages;
      return Success(None);
    }
  }
}
