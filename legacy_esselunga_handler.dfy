/**
 * The legacy repository/EsselungaHandler.kt: saves an ESSELUNGA store picked
 * in the browser (only if its store code is new) and loads its promotions.
 * A pass looks the product up before each insert, so products already
 * stored are never rewritten.  Store id 2 is this handler's own numbering;
 * the status callback is the operation's result here.
 */
module LegacyEsselungaHandlers {
  import opened Results
  import opened Model
  import opened LegacyStorage
  import EsselungaScrapers

  /** The category ids, in the order they are visited. */
  const Categories: seq<string> := [
    "1769", "1770", "1771", "1774", "1781", "1773", "1772", "1778", "1777", "1775", "1776",
    "1779", "1780", "1788", "1782", "1790", "1785", "1786", "2261", "1784", "1783", "1787"
  ]

  const EsselungaStoreId := 2

  /** The stored record of one store (the legacy `EsselungaStore` message). */
  datatype EsselungaStore = EsselungaStore(codPromo: int, url: string)

  /** What the status callback receives. */
  datatype DataStoreOperation = SUCCESS | FAILURE | ERROR

  /**
   * The site as the handler sees it: the status of the store page, the
   * number in its `data-cod-promo` attribute (`None` when that text is not
   * a number), and the status and items of a category page, asked by store
   * code, category and promotion code.
   */
  datatype LegacyEsselungaWeb = LegacyEsselungaWeb(storeStatus: int, codPromo: Option<int>,
                                                   pages: (string, string, int) -> (int, seq<EsselungaScrapers.EsselungaItem>))

  /** The product of a readable item. */
  function EsselungaProduct(item: EsselungaScrapers.EsselungaItem, category: string): (p: LegacyProduct)
    requires EsselungaScrapers.Readable(item)
    ensures p.Key() == (item.title, EsselungaStoreId) && p.category == category
    ensures p.originalPrice == Some(item.prezzo) && p.discountedPrice == item.promoPrices[0]
    ensures p.json.Keys == {"promotionName", "discountPercentage"}
  {
    LegacyProduct(item.title, EsselungaStoreId, Some(item.prezzo), item.promoPrices[0], category,
                  map["promotionName" := JText(item.promotionName),
                      "discountPercentage" := JText(item.discountPercentages[0])])
  }

  /**
   * The items of one page, in order: an item that cannot be read raises and
   * ends the pass (flag false); an item whose product is stored already is
   * skipped; the others are inserted.
   */
  function InsertNew(rows: map<LegacyKey, LegacyProduct>, items: seq<EsselungaScrapers.EsselungaItem>, category: string)
    : (map<LegacyKey, LegacyProduct>, bool)
    decreases |items|
  {
    if items == [] then (rows, true)
    else
      var (before, ok) := InsertNew(rows, items[..|items| - 1], category);
      var item := items[|items| - 1];
      if !ok then (before, false)
      else if !EsselungaScrapers.Readable(item) then (before, false)
      else
        var p := EsselungaProduct(item, category);
        if p.Key() in before then (before, true) else (before[p.Key() := p], true)
  }

  /** The pages of `categories` in order: a page that does not answer 200 is skipped. */
  function Pass(rows: map<LegacyKey, LegacyProduct>, web: LegacyEsselungaWeb, storeCode: string, code: int,
                categories: seq<string>): (map<LegacyKey, LegacyProduct>, bool)
    decreases |categories|
  {
    if categories == [] then (rows, true)
    else
      var (before, ok) := Pass(rows, web, storeCode, code, categories[..|categories| - 1]);
      var category := categories[|categories| - 1];
      var page := web.pages(storeCode, category, code);
      if !ok || page.0 != 200 then (before, ok)
      else InsertNew(before, page.1, category)
  }

  /**
   * A page never rewrites or removes a stored row, and every row it adds is
   * an ESSELUNGA product of that category under its own key.
   */
  lemma {:induction false} InsertNewKeeps(rows: map<LegacyKey, LegacyProduct>, items: seq<EsselungaScrapers.EsselungaItem>,
                                          category: string)
    ensures var after := InsertNew(rows, items, category).0;
      (forall k :: k in rows ==> k in after && after[k] == rows[k]) &&
      (forall k :: k in after && k !in rows ==> after[k].Key() == k && k.1 == EsselungaStoreId && after[k].category == category)
    decreases |items|
  {
    if items != [] {
      InsertNewKeeps(rows, items[..|items| - 1], category);
      var (before, ok) := InsertNew(rows, items[..|items| - 1], category);
      var item := items[|items| - 1];
      if ok && EsselungaScrapers.Readable(item) {
        var p := EsselungaProduct(item, category);
        assert p.Key().1 == EsselungaStoreId && p.category == category;
      }
    }
  }

  /**
   * A pass never rewrites or removes a stored row, and every row it adds is
   * an ESSELUNGA product of a category whose page answered 200.
   */
  lemma {:induction false} PassKeeps(rows: map<LegacyKey, LegacyProduct>, web: LegacyEsselungaWeb, storeCode: string,
                                     code: int, categories: seq<string>)
    ensures var after := Pass(rows, web, storeCode, code, categories).0;
      (forall k :: k in rows ==> k in after && after[k] == rows[k]) &&
      (forall k :: k in after && k !in rows ==>
         after[k].Key() == k && k.1 == EsselungaStoreId &&
         after[k].category in categories && web.pages(storeCode, after[k].category, code).0 == 200)
    decreases |categories|
  {
    if categories != [] {
      var init := categories[..|categories| - 1];
      PassKeeps(rows, web, storeCode, code, init);
      var (before, ok) := Pass(rows, web, storeCode, code, init);
      var category := categories[|categories| - 1];
      var page := web.pages(storeCode, category, code);
      if ok && page.0 == 200 {
        InsertNewKeeps(before, page.1, category);
      }
    }
  }

  /** No item before the `i`th has the same title, so no earlier item has its key. */
  ghost predicate FirstOfTitle(items: seq<EsselungaScrapers.EsselungaItem>, i: int)
    requires 0 <= i < |items|
  {
    forall j :: 0 <= j < i ==> items[j].title != items[i].title
  }

  /** A page ends normally exactly when every item on it is readable. */
  lemma {:induction false} InsertNewOk(rows: map<LegacyKey, LegacyProduct>, items: seq<EsselungaScrapers.EsselungaItem>,
                                       category: string)
    ensures InsertNew(rows, items, category).1 <==> forall i :: 0 <= i < |items| ==> EsselungaScrapers.Readable(items[i])
    decreases |items|
  {
    if items != [] {
      var n := |items| - 1;
      InsertNewOk(rows, items[..n], category);
      assert forall i :: 0 <= i < n ==> items[..n][i] == items[i];
    }
  }

  /** Every key a page adds is the title of one of its items. */
  lemma {:induction false} InsertNewOrigin(rows: map<LegacyKey, LegacyProduct>, items: seq<EsselungaScrapers.EsselungaItem>,
                                           category: string)
    ensures forall k :: k in InsertNew(rows, items, category).0 && k !in rows ==>
              exists j :: 0 <= j < |items| && items[j].title == k.0
    decreases |items|
  {
    if items != [] {
      var n := |items| - 1;
      var init := items[..n];
      InsertNewOrigin(rows, init, category);
      var before := InsertNew(rows, init, category).0;
      var after := InsertNew(rows, items, category).0;
      forall k | k in after && k !in rows ensures exists j :: 0 <= j < |items| && items[j].title == k.0 {
        if k in before {
          var j :| 0 <= j < |init| && init[j].title == k.0;
          assert items[j].title == k.0;
        } else {
          assert items[n].title == k.0;
        }
      }
    }
  }

  /** Conversely, when a page ends normally every item's product is in the table. */
  lemma {:induction false} InsertNewPresent(rows: map<LegacyKey, LegacyProduct>, items: seq<EsselungaScrapers.EsselungaItem>,
                                            category: string)
    requires InsertNew(rows, items, category).1
    ensures forall i :: 0 <= i < |items| ==>
              EsselungaScrapers.Readable(items[i]) && (items[i].title, EsselungaStoreId) in InsertNew(rows, items, category).0
    decreases |items|
  {
    var n := |items| - 1;
    if n >= 0 {
      var init := items[..n];
      assert InsertNew(rows, init, category).1;
      InsertNewPresent(rows, init, category);
      var before := InsertNew(rows, init, category).0;
      var after := InsertNew(rows, items, category).0;
      assert EsselungaScrapers.Readable(items[n]);
      assert (items[n].title, EsselungaStoreId) in after;
      forall i | 0 <= i < n
        ensures EsselungaScrapers.Readable(items[i]) && (items[i].title, EsselungaStoreId) in after
      {
        assert init[i] == items[i];
        assert (init[i].title, EsselungaStoreId) in before;
      }
    }
  }

  /**
   * When a page ends normally, the first item of each title whose key was
   * free is stored exactly as built.
   */
  lemma {:induction false} InsertNewCovers(rows: map<LegacyKey, LegacyProduct>, items: seq<EsselungaScrapers.EsselungaItem>,
                                           category: string)
    requires InsertNew(rows, items, category).1
    ensures forall i :: 0 <= i < |items| && (items[i].title, EsselungaStoreId) !in rows && FirstOfTitle(items, i) ==>
              EsselungaScrapers.Readable(items[i]) && (items[i].title, EsselungaStoreId) in InsertNew(rows, items, category).0 &&
              InsertNew(rows, items, category).0[(items[i].title, EsselungaStoreId)] == EsselungaProduct(items[i], category)
    decreases |items|
  {
    var n := |items| - 1;
    if n >= 0 {
      var init := items[..n];
      assert InsertNew(rows, init, category).1;
      InsertNewCovers(rows, init, category);
      InsertNewPresent(rows, init, category);
      var before := InsertNew(rows, init, category).0;
      var after := InsertNew(rows, items, category).0;
      var last := (items[n].title, EsselungaStoreId);
      assert EsselungaScrapers.Readable(items[n]);
      forall i | 0 <= i < |items| && (items[i].title, EsselungaStoreId) !in rows && FirstOfTitle(items, i)
        ensures EsselungaScrapers.Readable(items[i]) && (items[i].title, EsselungaStoreId) in after &&
                after[(items[i].title, EsselungaStoreId)] == EsselungaProduct(items[i], category)
      {
        if i < n {
          assert init[i] == items[i];
          assert FirstOfTitle(init, i);
          assert (init[i].title, EsselungaStoreId) in before;
        } else {
          InsertNewOrigin(rows, init, category);
        }
      }
    }
  }

  /**
   * Conversely, a pass that ends normally has read every item of every
   * page that answered 200, and each of those products is in the table.
   */
  lemma {:induction false} PassCovers(rows: map<LegacyKey, LegacyProduct>, web: LegacyEsselungaWeb, storeCode: string,
                                      code: int, categories: seq<string>)
    requires Pass(rows, web, storeCode, code, categories).1
    ensures forall m, i :: 0 <= m < |categories| && web.pages(storeCode, categories[m], code).0 == 200 &&
                           0 <= i < |web.pages(storeCode, categories[m], code).1| ==>
              EsselungaScrapers.Readable(web.pages(storeCode, categories[m], code).1[i]) &&
              (web.pages(storeCode, categories[m], code).1[i].title, EsselungaStoreId) in
                Pass(rows, web, storeCode, code, categories).0
    decreases |categories|
  {
    var n := |categories| - 1;
    if n >= 0 {
      var init := categories[..n];
      var before := Pass(rows, web, storeCode, code, init).0;
      var after := Pass(rows, web, storeCode, code, categories).0;
      assert Pass(rows, web, storeCode, code, init).1;
      PassCovers(rows, web, storeCode, code, init);
      var page := web.pages(storeCode, categories[n], code);
      if page.0 == 200 {
        InsertNewPresent(before, page.1, categories[n]);
        InsertNewKeeps(before, page.1, categories[n]);
      }
      assert forall k :: k in before ==> k in after;
      forall m, i | 0 <= m < |categories| && web.pages(storeCode, categories[m], code).0 == 200 &&
                    0 <= i < |web.pages(storeCode, categories[m], code).1|
        ensures EsselungaScrapers.Readable(web.pages(storeCode, categories[m], code).1[i]) &&
                (web.pages(storeCode, categories[m], code).1[i].title, EsselungaStoreId) in after
      {
        if m < n {
          assert init[m] == categories[m];
        }
      }
    }
  }

  /** The legacy store list (`esselungaStoresDataStore`), keyed by store code. */
  class LegacyEsselungaStores {
    var stores: map<string, EsselungaStore>

    constructor ()
      ensures stores == map[]
    {
      stores := map[];
    }
  }

  /** Once a page has ended with an exception, the later items change nothing. */
  lemma {:induction false} InsertNewStops(rows: map<LegacyKey, LegacyProduct>, items: seq<EsselungaScrapers.EsselungaItem>,
                                          category: string, n: nat)
    requires n <= |items| && !InsertNew(rows, items[..n], category).1
    ensures InsertNew(rows, items, category) == InsertNew(rows, items[..n], category)
    decreases |items| - n
  {
    if n < |items| {
      assert items[..n + 1][..n] == items[..n];
      InsertNewStops(rows, items, category, n + 1);
    } else {
      assert items[..n] == items;
    }
  }

  /**
   * The inserts of one category page: each item is read, its product looked
   * up, and inserted only when absent.
   */
  method InsertNewPage(dao: LegacyProductDao, items: seq<EsselungaScrapers.EsselungaItem>, category: string)
    returns (ok: bool)
    requires dao.Valid()
    modifies dao`rows
    ensures dao.Valid()
    ensures (dao.rows, ok) == InsertNew(old(dao.rows), items, category)
  {
    var j := 0;
    while j < |items|
      invariant 0 <= j <= |items|
      invariant dao.Valid()
      invariant InsertNew(old(dao.rows), items[..j], category) == (dao.rows, true)
    {
      assert items[..j + 1][..j] == items[..j];
      var item := items[j];
      if !EsselungaScrapers.Readable(item) {
        InsertNewStops(old(dao.rows), items, category, j + 1);
        return false;
      }
      var p := EsselungaProduct(item, category);
      var oldProduct := dao.GetProductById(p.productName, p.storeId);
      if oldProduct.None? {
        var r := dao.InsertProduct(p);
      }
      j := j + 1;
    }
    assert items[..|items|] == items;
    return true;
  }

  /**
   * `getStoreDiscount`: a store page that does not answer 200 gives false
   * and a promotion code equal to the stored one gives true, both with no
   * writes; otherwise the store's code is updated first, then the pages are
   * read, an unreadable item ending the pass with the exception.
   */
  method GetStoreDiscount(storesData: LegacyEsselungaStores, dao: LegacyProductDao, storeCode: string,
                          store: EsselungaStore, web: LegacyEsselungaWeb) returns (c: Completion<bool>)
    requires dao.Valid()
    modifies storesData, dao`rows
    ensures dao.Valid()
    ensures web.storeStatus != 200 ==>
              c == Returned(false) && storesData.stores == old(storesData.stores) && dao.rows == old(dao.rows)
    ensures web.storeStatus == 200 && web.codPromo.None? ==>
              c == Thrown(NumberFormat) && storesData.stores == old(storesData.stores) && dao.rows == old(dao.rows)
    ensures web.storeStatus == 200 && web.codPromo == Some(store.codPromo) ==>
              c == Returned(true) && storesData.stores == old(storesData.stores) && dao.rows == old(dao.rows)
    ensures web.storeStatus == 200 && web.codPromo.Some? && web.codPromo.value != store.codPromo ==>
              var code := web.codPromo.value;
              var (after, ok) := Pass(old(dao.rows), web, storeCode, code, Categories);
              storesData.stores == old(storesData.stores)[storeCode := store.(codPromo := code)] &&
              dao.rows == after && c == (if ok then Returned(true) else Thrown(JsonFailure))
  {
    if web.storeStatus != 200 {
      return Returned(false);
    }
    if web.codPromo.None? {
      return Thrown(NumberFormat);
    }
    var code := web.codPromo.value;
    if code == store.codPromo {
      return Returned(true);
    }
    storesData.stores := storesData.stores[storeCode := store.(codPromo := code)];
    var ok := RunPass(dao, web, storeCode, code);
    return if ok then Returned(true) else Thrown(JsonFailure);
  }

  /** One more category of the pass: its page is inserted when the pass is still going and it answered 200. */
  lemma PassStep(rows: map<LegacyKey, LegacyProduct>, web: LegacyEsselungaWeb, storeCode: string, code: int, k: nat)
    requires k < |Categories|
    ensures var (before, ok) := Pass(rows, web, storeCode, code, Categories[..k]);
      var page := web.pages(storeCode, Categories[k], code);
      Pass(rows, web, storeCode, code, Categories[..k + 1]) ==
        if !ok || page.0 != 200 then (before, ok) else InsertNew(before, page.1, Categories[k])
  {
    assert Categories[..k + 1][..k] == Categories[..k];
  }

  /** The category loop of `getStoreDiscount`, ending at the first page whose items cannot be read. */
  method RunPass(dao: LegacyProductDao, web: LegacyEsselungaWeb, storeCode: string, code: int) returns (ok: bool)
    requires dao.Valid()
    modifies dao`rows
    ensures dao.Valid()
    ensures (dao.rows, ok) == Pass(old(dao.rows), web, storeCode, code, Categories)
  {
    var k := 0;
    while k < |Categories|
      invariant 0 <= k <= |Categories|
      invariant dao.Valid()
      invariant Pass(old(dao.rows), web, storeCode, code, Categories[..k]) == (dao.rows, true)
    {
      PassStep(old(dao.rows), web, storeCode, code, k);
      var category := Categories[k];
      var page := web.pages(storeCode, category, code);
      if page.0 == 200 {
        ok := InsertNewPage(dao, page.1, category);
        if !ok {
          PassStops(old(dao.rows), web, storeCode, code, k + 1);
          return false;
        }
      }
      k := k + 1;
    }
    assert Categories[..|Categories|] == Categories;
    return true;
  }

  lemma {:induction false} PassStops(rows: map<LegacyKey, LegacyProduct>, web: LegacyEsselungaWeb, storeCode: string,
                                     code: int, n: nat)
    requires n <= |Categories| && !Pass(rows, web, storeCode, code, Categories[..n]).1
    ensures Pass(rows, web, storeCode, code, Categories) == Pass(rows, web, storeCode, code, Categories[..n])
    decreases |Categories| - n
  {
    if n < |Categories| {
      assert Categories[..n + 1][..n] == Categories[..n];
      PassStops(rows, web, storeCode, code, n + 1);
    } else {
      assert Categories[..n] == Categories;
    }
  }

  /**
   * `saveNewStore`: a store code that is stored already reports ERROR and
   * changes nothing; a new one is stored with promotion code 0 and the url,
   * and its promotions are loaded: true reports SUCCESS, false FAILURE, and
   * an exception ERROR.
   */
  method SaveNewStore(storesData: LegacyEsselungaStores, dao: LegacyProductDao, url: string, web: LegacyEsselungaWeb)
    returns (op: DataStoreOperation)
    requires dao.Valid()
    modifies storesData, dao`rows
    ensures dao.Valid()
    ensures EsselungaScrapers.StoreCode(url) in old(storesData.stores) ==>
              op == ERROR && storesData.stores == old(storesData.stores) && dao.rows == old(dao.rows)
    ensures EsselungaScrapers.StoreCode(url) !in old(storesData.stores) ==>
              var storeCode := EsselungaScrapers.StoreCode(url);
              (web.storeStatus != 200 ==>
                 op == FAILURE && storesData.stores == old(storesData.stores)[storeCode := EsselungaStore(0, url)] &&
                 dao.rows == old(dao.rows)) &&
              (web.storeStatus == 200 && web.codPromo.None? ==>
                 op == ERROR && storesData.stores == old(storesData.stores)[storeCode := EsselungaStore(0, url)] &&
                 dao.rows == old(dao.rows)) &&
              (web.storeStatus == 200 && web.codPromo == Some(0) ==>
                 op == SUCCESS && storesData.stores == old(storesData.stores)[storeCode := EsselungaStore(0, url)] &&
                 dao.rows == old(dao.rows)) &&
              (web.storeStatus == 200 && web.codPromo.Some? && web.codPromo.value != 0 ==>
                 var code := web.codPromo.value;
                 var (after, ok) := Pass(old(dao.rows), web, storeCode, code, Categories);
                 storesData.stores == old(storesData.stores)[storeCode := EsselungaStore(code, url)] &&
                 dao.rows == after && op == (if ok then SUCCESS else ERROR))
  {
    op := SaveStoreUnder(storesData, dao, EsselungaScrapers.StoreCode(url), url, web);
  }

  /** `saveNewStore` once the store code has been read off the url. */
  method SaveStoreUnder(storesData: LegacyEsselungaStores, dao: LegacyProductDao, storeCode: string, url: string,
                        web: LegacyEsselungaWeb)
    returns (op: DataStoreOperation)
    requires dao.Valid()
    modifies storesData, dao`rows
    ensures dao.Valid()
    ensures storeCode in old(storesData.stores) ==>
              op == ERROR && storesData.stores == old(storesData.stores) && dao.rows == old(dao.rows)
    ensures storeCode !in old(storesData.stores) ==>
              (web.storeStatus != 200 ==>
                 op == FAILURE && storesData.stores == old(storesData.stores)[storeCode := EsselungaStore(0, url)] &&
                 dao.rows == old(dao.rows)) &&
              (web.storeStatus == 200 && web.codPromo.None? ==>
                 op == ERROR && storesData.stores == old(storesData.stores)[storeCode := EsselungaStore(0, url)] &&
                 dao.rows == old(dao.rows)) &&
              (web.storeStatus == 200 && web.codPromo == Some(0) ==>
                 op == SUCCESS && storesData.stores == old(storesData.stores)[storeCode := EsselungaStore(0, url)] &&
                 dao.rows == old(dao.rows)) &&
              (web.storeStatus == 200 && web.codPromo.Some? && web.codPromo.value != 0 ==>
                 var code := web.codPromo.value;
                 var (after, ok) := Pass(old(dao.rows), web, storeCode, code, Categories);
                 storesData.stores == old(storesData.stores)[storeCode := EsselungaStore(code, url)] &&
                 dao.rows == after && op == (if ok then SUCCESS else ERROR))
  {
    if storeCode in storesData.stores {
      return ERROR;
    }
    var store := EsselungaStore(0, url);
    storesData.stores := storesData.stores[storeCode := store];
    var c := GetStoreDiscount(storesData, dao, storeCode, store, web);
    match c {
      case Returned(found) =>
        op := if found then SUCCESS else FAILURE;
      case Thrown(_) =>
        op := ERROR;
    }
  }
}
