/**
 * service/stores/TigrosScraperService.kt: finds the current leaflet (the
 * stored one if it still lists products, else the first of leaflets
 * 0..500 that does), and when it differs from the stored one replaces the
 * TIGROS catalogue category by category.
 */
module TigrosScrapers {
  import opened Results
  import opened Model
  import opened Text
  import opened ProductStorage
  import opened ProductsRepositories
  import opened Scraping

  /** `TigrosCategory.idList`, in declaration order. */
  const TigrosCategoryIds: seq<string> := [
    "148031509", "148031507", "148031511", "148031512", "148031510", "148031517", "148031520",
    "148031516", "148031518", "148031514", "148031515", "148031508", "148031513", "1263"
  ]

  /** `TigrosCategory.categories`: the display name of each id, in the same order. */
  const TigrosCategoryNames: seq<string> := [
    "Frutta e Verdura", "Carne", "Pesce e Sushi", "Banco Gastronomia", "Pane e Pasticceria",
    "Freschi Confezionati", "Surgelati e Gelati", "Dispensa", "Infanzia", "Bevande", "Cura Casa",
    "Cura Persona", "Animali", "Specialità Etniche"
  ]

  /** The last leaflet id of the scan. */
  const LastLeaflet: int := 500

  const FetchErrorMessage: string := "Error while fetching data from Tigros"

  /** One entry of a category page's `data.products` array. */
  datatype TigrosItem = TigrosItem(name: string, price: real, priceDisplay: real,
                                   shortDescr: string, description: string, mediaUrl: string)

  /**
   * The site as the scraper sees it: the leaflet probe (the `totItems` of a
   * leaflet, asked under the fixed category 148031513) and the product page
   * of a leaflet and category.
   */
  datatype TigrosWeb = TigrosWeb(leaflet: int -> Response<int>,
                                 products: (int, string) -> Response<seq<TigrosItem>>)

  /** What one leaflet probe decides. */
  datatype Probe = Qualifies | Skip | Crash

  function ProbeOf(r: Response<int>): (p: Probe)
    ensures p == Qualifies <==> r.Responds? && r.status == 200 && r.body.Some? && r.body.value != 0
    ensures p == Skip <==> r.Responds? && (r.status != 200 || (r.body.Some? && r.body.value == 0))
  {
    match r
    case Raises => Crash
    case Responds(status, body) =>
      if status != 200 then Skip
      else if body.None? then Crash
      else if body.value != 0 then Qualifies
      else Skip
  }

  /** How leaflet discovery ends: a code, no leaflet, or an exception. */
  datatype Discovery = Found(code: int) | NotFound | Failed

  /** The scan of leaflets `i`..500, in increasing order. */
  function Scan(web: TigrosWeb, i: nat): Discovery
    decreases LastLeaflet + 1 - i
  {
    if i > LastLeaflet then NotFound
    else match ProbeOf(web.leaflet(i))
      case Crash => Failed
      case Qualifies => Found(i)
      case Skip => Scan(web, i + 1)
  }

  /**
   * Discovery: a stored code (other than -1) whose leaflet still lists
   * products is kept with no scan; otherwise leaflets 0..500 are scanned.
   */
  function Discover(web: TigrosWeb, stored: int): (d: Discovery)
    ensures stored != -1 && ProbeOf(web.leaflet(stored)) == Qualifies ==> d == Found(stored)
    ensures stored == -1 || ProbeOf(web.leaflet(stored)) == Skip ==> d == Scan(web, 0)
  {
    if stored != -1 then
      match ProbeOf(web.leaflet(stored))
      case Crash => Failed
      case Qualifies => Found(stored)
      case Skip => Scan(web, 0)
    else Scan(web, 0)
  }

  /**
   * The scan picks the first qualifying leaflet at or after `i`, skipping
   * the ones before it; it finds none only when every leaflet up to 500 is
   * skipped.
   */
  lemma {:induction false} ScanSpec(web: TigrosWeb, i: nat)
    ensures Scan(web, i).Found? ==>
              i <= Scan(web, i).code <= LastLeaflet &&
              ProbeOf(web.leaflet(Scan(web, i).code)) == Qualifies &&
              forall j :: i <= j < Scan(web, i).code ==> ProbeOf(web.leaflet(j)) == Skip
    ensures Scan(web, i).NotFound? <==> forall j :: i <= j <= LastLeaflet ==> ProbeOf(web.leaflet(j)) == Skip
    decreases LastLeaflet + 1 - i
  {
    if i <= LastLeaflet {
      ScanSpec(web, i + 1);
    }
  }

  /** A discovered code is the stored one or a leaflet id in 0..500. */
  lemma DiscoveredCodeRange(web: TigrosWeb, stored: int)
    requires Discover(web, stored).Found?
    ensures Discover(web, stored).code == stored || 0 <= Discover(web, stored).code <= LastLeaflet
  {
    ScanSpec(web, 0);
  }

  /** The product built from one item (`name` trimmed, `price` dropped when it equals `priceDisplay`). */
  function TigrosProduct(item: TigrosItem, category: string): Product {
    Product(Trim(item.name), Tigros.Value(),
            if item.price == item.priceDisplay then None else Some(item.price),
            item.priceDisplay, category, false,
            Some(map["brand" := JText(item.shortDescr), "quantity" := JText(item.description),
                     "imageUrl" := JText(item.mediaUrl)]))
  }

  /**
   * Each product of a page has a trimmed name, the TIGROS id, the category
   * id and no favourite mark; its original price is absent exactly when
   * `price` equals `priceDisplay`.
   */
  lemma TigrosProductSpec(item: TigrosItem, category: string)
    ensures var p := TigrosProduct(item, category);
      IsTrimmed(p.productName) && p.storeId == Tigros.Value() && p.category == category && !p.isFavorite &&
      (p.originalPrice.None? <==> item.price == item.priceDisplay) &&
      (p.originalPrice.Some? ==> p.originalPrice.value == item.price) &&
      p.discountedPrice == item.priceDisplay &&
      p.json.Some? && p.json.value.Keys == {"brand", "quantity", "imageUrl"} &&
      p.json.value["imageUrl"] == JText(item.mediaUrl)
  {
  }

  function TigrosBatch(items: seq<TigrosItem>, category: string): seq<Product> {
    seq(|items|, j requires 0 <= j < |items| => TigrosProduct(items[j], category))
  }

  /** A category page: its batch, or `None` when reading it raises (its status is not looked at). */
  function CategoryPage(web: TigrosWeb, code: int, category: string): Option<seq<Product>> {
    match web.products(code, category)
    case Raises => None
    case Responds(_, body) => if body.None? then None else Some(TigrosBatch(body.value, category))
  }

  function Pages(web: TigrosWeb, code: int): seq<Option<seq<Product>>> {
    seq(|TigrosCategoryIds|, j requires 0 <= j < |TigrosCategoryIds| => CategoryPage(web, code, TigrosCategoryIds[j]))
  }

  /** What a TIGROS row written by a pass looks like. */
  predicate IsTigrosRow(p: Product) {
    IsTrimmed(p.productName) && p.storeId == Tigros.Value() && !p.isFavorite &&
    p.category in TigrosCategoryIds &&
    (p.originalPrice.None? || p.originalPrice.value != p.discountedPrice)
  }

  /**
   * After a replacement pass the rows of other stores are as they were,
   * and every TIGROS row is one the pass built: trimmed, not a favourite
   * (favourites do not survive a new leaflet).  Conversely, when no two
   * products read share a name, every product read is stored.
   */
  lemma {:induction false} CatalogAfterPass(rows: map<Key, Row>, web: TigrosWeb, code: int)
    ensures var after := ApplyBatches(WithoutStore(rows, Tigros.Value()), ReadPrefix(Pages(web, code)));
      (forall k: Key :: k.1 != Tigros.Value() ==> (k in after <==> k in rows) && (k in rows ==> after[k] == rows[k])) &&
      (forall k :: k in after && k.1 == Tigros.Value() ==> IsTigrosRow(after[k]))
    ensures DistinctKeys(ReadPrefix(Pages(web, code))) ==>
              AllStored(ApplyBatches(WithoutStore(rows, Tigros.Value()), ReadPrefix(Pages(web, code))), ReadPrefix(Pages(web, code)))
  {
    var pages := Pages(web, code);
    var bs := ReadPrefix(pages);
    assert AllOfStore(bs, Tigros.Value()) by {
      forall i, j | 0 <= i < |bs| && 0 <= j < |bs[i]| ensures bs[i][j].storeId == Tigros.Value() {
        assert pages[i] == Some(bs[i]);
      }
    }
    var base := WithoutStore(rows, Tigros.Value());
    assert FreshFor(base, bs) by {
      assert AllOfStore(bs, Tigros.Value());
    }
    ApplyBatchesSpec(base, bs, Tigros.Value());
    var after := ApplyBatches(base, bs);
    forall k | k in after && k.1 == Tigros.Value() ensures IsTigrosRow(after[k]) {
      assert k !in base;
      var i, j :| 0 <= i < |bs| && 0 <= j < |bs[i]| && SameFields(after[k], bs[i][j]);
      assert pages[i] == Some(bs[i]);
      var items := web.products(code, TigrosCategoryIds[i]).body.value;
      assert bs[i][j] == TigrosProduct(items[j], TigrosCategoryIds[i]);
      TigrosProductSpec(items[j], TigrosCategoryIds[i]);
    }
  }

  /** The leaflet search of `getStoreDiscount`: the stored code's probe, then the scan. */
  method FindLeaflet(store: Store, web: TigrosWeb) returns (d: Discovery)
    ensures d == Discover(web, store.codPromo)
  {
    var promoCode := -1;
    if store.codPromo != -1 {
      var probe := ProbeOf(web.leaflet(store.codPromo));
      if probe == Crash {
        return Failed;
      }
      if probe == Qualifies {
        promoCode := store.codPromo;
      }
    }
    if promoCode == -1 {
      var i := 0;
      while i <= LastLeaflet
        invariant 0 <= i <= LastLeaflet + 1
        invariant Scan(web, 0) == Scan(web, i)
        invariant promoCode == -1
      {
        var probe := ProbeOf(web.leaflet(i));
        if probe == Crash {
          return Failed;
        }
        if probe == Qualifies {
          promoCode := i;
          break;
        }
        i := i + 1;
      }
    }
    if promoCode == -1 {
      return NotFound;
    }
    return Found(promoCode);
  }

  /** The products of one category page, in page order. */
  method BuildBatch(items: seq<TigrosItem>, category: string) returns (batch: seq<Product>)
    ensures batch == TigrosBatch(items, category)
  {
    batch := [];
    var i := 0;
    while i < |items|
      invariant 0 <= i <= |items|
      invariant |batch| == i
      invariant forall j :: 0 <= j < i ==> batch[j] == TigrosProduct(items[j], category)
    {
      var product := TigrosProduct(items[i], category);
      batch := batch + [product];
      i := i + 1;
    }
    assert forall j :: 0 <= j < |items| ==> batch[j] == TigrosBatch(items, category)[j];
  }

  class TigrosScraperService {
    const products: ProductsRepository

    constructor (products: ProductsRepository)
      ensures this.products == products
    {
      this.products := products;
    }

    /** One category of the pass: its page's batch is inserted, with the result ignored, unless reading it raises. */
    method InsertPage(code: int, web: TigrosWeb, k: nat) returns (read: bool)
      requires k < |TigrosCategoryIds|
      requires products.dao.Valid() && !products.dao.faulty
      modifies products.dao
      ensures products.dao.Valid() && !products.dao.faulty
      ensures read <==> Pages(web, code)[k].Some?
      ensures products.dao.rows == if read then AfterInsert(old(products.dao.rows), Pages(web, code)[k].value)
                                   else old(products.dao.rows)
    {
      var category := TigrosCategoryIds[k];
      var page := web.products(code, category);
      if page.Raises? || page.body.None? {
        return false;
      }
      var batch := BuildBatch(page.body.value, category);
      var _ := products.InsertAllProducts(batch);
      return true;
    }

    /**
     * The category loop of `getStoreDiscount`: each page's batch is inserted
     * with its result ignored; the first page that raises ends the pass.
     */
    method ReplaceCatalog(code: int, web: TigrosWeb) returns (r: Result<Option<int>>)
      requires products.dao.Valid() && !products.dao.faulty
      modifies products.dao
      ensures products.dao.Valid() && !products.dao.faulty
      ensures products.dao.rows == ApplyBatches(old(products.dao.rows), ReadPrefix(Pages(web, code)))
      ensures r == if AllRead(Pages(web, code)) then Success(Some(code))
                   else ServiceLayerError(UnknownServiceError(FetchErrorMessage))
    {
      ghost var base := products.dao.rows;
      ghost var pages := Pages(web, code);
      var k := 0;
      while k < |TigrosCategoryIds|
        invariant 0 <= k <= |TigrosCategoryIds|
        invariant products.dao.Valid() && !products.dao.faulty
        invariant forall j :: 0 <= j < k ==> pages[j].Some?
        invariant products.dao.rows == ApplyBatches(base, ReadPrefix(pages[..k]))
      {
        var read := InsertPage(code, web, k);
        if !read {
          ReadPrefixStops(pages, k);
          return ServiceLayerError(UnknownServiceError(FetchErrorMessage));
        }
        ApplyReadPrefixExtend(base, pages, k);
        k := k + 1;
      }
      assert pages[..k] == pages;
      return Success(Some(code));
    }

    /**
     * `getStoreDiscount`: `Success(None)` when the leaflet is the stored
     * one, `Success(Some(code))` after a full replacement; no row is deleted
     * unless a new leaflet was found, and deleted rows are not restored when
     * a later page raises.
     */
    method GetStoreDiscount(store: Store, web: TigrosWeb) returns (r: Result<Option<int>>)
      requires products.dao.Valid()
      modifies products.dao
      ensures products.dao.Valid() && products.dao.faulty == old(products.dao.faulty)
      ensures Discover(web, store.codPromo) == Failed ==>
                r == ServiceLayerError(UnknownServiceError(FetchErrorMessage)) && products.dao.rows == old(products.dao.rows)
      ensures Discover(web, store.codPromo) == NotFound ==>
                r == ServiceLayerError(FlyerNotFound) && products.dao.rows == old(products.dao.rows)
      ensures Discover(web, store.codPromo) == Found(store.codPromo) ==>
                r == Success(None) && products.dao.rows == old(products.dao.rows)
      ensures Discover(web, store.codPromo).Found? && Discover(web, store.codPromo).code != store.codPromo ==>
                if old(products.dao.faulty) then
                  r == Error(UnknownRepositoryError("Error deleting products by store type")) &&
                  products.dao.rows == old(products.dao.rows)
                else
                  var code := Discover(web, store.codPromo).code;
                  products.dao.rows ==
                    ApplyBatches(WithoutStore(old(products.dao.rows), Tigros.Value()), ReadPrefix(Pages(web, code))) &&
                  r == if AllRead(Pages(web, code)) then Success(Some(code))
                       else ServiceLayerError(UnknownServiceError(FetchErrorMessage))
    {
      var found := FindLeaflet(store, web);
      match found
      case Failed =>
        return ServiceLayerError(UnknownServiceError(FetchErrorMessage));
      case NotFound =>
        return ServiceLayerError(FlyerNotFound);
      case Found(promoCode) =>
        if promoCode == store.codPromo {
          return Success(None);
        }
        var deleted := products.DeleteProductsByStoreType(Tigros.Value());
        if deleted.Error? {
          return Error(deleted.error);
        }
        ghost var cleared := products.dao.rows;
        assert cleared == WithoutStore(old(products.dao.rows), Tigros.Value());
        r := ReplaceCatalog(promoCode, web);
        assert products.dao.rows == ApplyBatches(cleared, ReadPrefix(Pages(web, promoCode)));
    }
  }
}
