/**
 * The legacy repository/TigrosHandler.kt: picks the first leaflet among
 * 0..500 that lists products and stores every product of its category
 * pages, one insert at a time, in a table whose inserts abort on a taken
 * key.  Store id 3 is this handler's own numbering.
 */
module LegacyTigrosHandlers {
  import opened Results
  import opened Model
  import opened Listing
  import opened LegacyStorage
  import TigrosScrapers

  /** The category ids as written: 148031517 appears twice (and 148031511 never). */
  const CategoriesAsWritten: seq<string> := [
    "148031509", "148031507", "148031512", "148031510", "148031517", "148031517", "148031520",
    "148031516", "148031518", "148031514", "148031515", "148031508", "148031513"
  ]

  /**
   * The same ids with the repeated entry replaced by 148031511, the one
   * category of the store's thirteen that the written list misses; the
   * handler below visits these.
   */
  const Categories: seq<string> := [
    "148031509", "148031507", "148031512", "148031510", "148031517", "148031511", "148031520",
    "148031516", "148031518", "148031514", "148031515", "148031508", "148031513"
  ]

  const TigrosStoreId := 3
  const LastLeaflet := 500
  const DuplicatedCategory := "148031517"
  const MissingCategory := "148031511"

  /** One entry of a category page's `data.products` array. */
  datatype LegacyTigrosItem = LegacyTigrosItem(name: string, price: real, priceDisplay: real,
                                               shortDescr: string, description: string)

  /**
   * The site as the handler sees it: the status of the store page, the
   * `totItems` of each leaflet (asked under category 148031513) and the
   * items of a leaflet's category page.
   */
  datatype LegacyTigrosWeb = LegacyTigrosWeb(storeStatus: int, totItems: int -> int,
                                             products: (int, string) -> seq<LegacyTigrosItem>)

  /**
   * The scan from leaflet `i`: the code is assigned before `totItems` is
   * looked at, so it stops at the first leaflet that lists products, or at 500.
   */
  function ScanFrom(web: LegacyTigrosWeb, i: nat): (code: int)
    requires i <= LastLeaflet
    ensures i <= code <= LastLeaflet
    ensures web.totItems(code) != 0 || code == LastLeaflet
    ensures forall j :: i <= j < code ==> web.totItems(j) == 0
    decreases LastLeaflet - i
  {
    if i == LastLeaflet || web.totItems(i) != 0 then i else ScanFrom(web, i + 1)
  }

  /** The leaflet code of a pass: never the initial -1, so "no leaflet found" cannot happen. */
  function PromoCode(web: LegacyTigrosWeb): (code: int)
    ensures 0 <= code <= LastLeaflet
  {
    ScanFrom(web, 0)
  }

  function TigrosProduct(item: LegacyTigrosItem, category: string): (p: LegacyProduct)
    ensures p.Key() == (item.name, TigrosStoreId) && p.category == category
    ensures p.originalPrice == Some(item.price) && p.discountedPrice == item.priceDisplay
    ensures p.json.Keys == {"brand", "quantity"}
  {
    LegacyProduct(item.name, TigrosStoreId, Some(item.price), item.priceDisplay, category,
                  map["brand" := JText(item.shortDescr), "quantity" := JText(item.description)])
  }

  function Batch(items: seq<LegacyTigrosItem>, category: string): (ps: seq<LegacyProduct>)
    ensures |ps| == |items|
    ensures forall j :: 0 <= j < |items| ==> ps[j] == TigrosProduct(items[j], category)
  {
    seq(|items|, j requires 0 <= j < |items| => TigrosProduct(items[j], category))
  }

  /** The products of a pass over `categories`, in the order they are inserted. */
  function PassProducts(web: LegacyTigrosWeb, code: int, categories: seq<string>): seq<LegacyProduct>
    decreases |categories|
  {
    if categories == [] then []
    else
      var last := categories[|categories| - 1];
      PassProducts(web, code, categories[..|categories| - 1]) + Batch(web.products(code, last), last)
  }

  lemma {:induction false} PassProductsAppend(web: LegacyTigrosWeb, code: int, a: seq<string>, b: seq<string>)
    ensures PassProducts(web, code, a + b) == PassProducts(web, code, a) + PassProducts(web, code, b)
    decreases |b|
  {
    if b == [] {
      assert a + b == a;
    } else {
      assert (a + b)[..|a + b| - 1] == a + b[..|b| - 1];
      PassProductsAppend(web, code, a, b[..|b| - 1]);
    }
  }

  /**
   * One more category of a pass appends its batch, and the products of the
   * pass so far with that batch are the start of the whole pass.
   */
  lemma PassStep(web: LegacyTigrosWeb, code: int, categories: seq<string>, k: nat)
    requires k < |categories|
    ensures var done := PassProducts(web, code, categories[..k]);
      var batch := Batch(web.products(code, categories[k]), categories[k]);
      PassProducts(web, code, categories[..k + 1]) == done + batch &&
      |done| + |batch| <= |PassProducts(web, code, categories)| &&
      PassProducts(web, code, categories)[..|done| + |batch|] == done + batch
  {
    assert categories[..k + 1][..k] == categories[..k];
    PassProductsAppend(web, code, categories[..k + 1], categories[k + 1..]);
    assert categories[..k + 1] + categories[k + 1..] == categories;
  }

  /** An insert that aborts after the first `n` products of `ps` ends the whole sequence there. */
  lemma AbortEnds(rows: map<LegacyKey, LegacyProduct>, ps: seq<LegacyProduct>, n: nat)
    requires n <= |ps| && !InsertEach(rows, ps[..n]).1
    ensures InsertEach(rows, ps) == InsertEach(rows, ps[..n])
  {
    InsertEachAppend(rows, ps[..n], ps[n..]);
    assert ps[..n] + ps[n..] == ps;
  }

  /**
   * As written, a pass whose leaflet lists anything under 148031517 always
   * aborts: the first of those products is inserted by the first visit of
   * that category, so inserting it again on the second visit finds its key
   * taken, even in an empty table.
   */
  lemma DuplicateCategoryAborts(rows: map<LegacyKey, LegacyProduct>, web: LegacyTigrosWeb)
    requires |web.products(PromoCode(web), DuplicatedCategory)| > 0
    ensures !InsertEach(rows, PassProducts(web, PromoCode(web), CategoriesAsWritten)).1
  {
    var code := PromoCode(web);
    var a := CategoriesAsWritten[..5];
    var b := CategoriesAsWritten[5..];
    assert a + b == CategoriesAsWritten;
    PassProductsAppend(web, code, a, b);
    var pa := PassProducts(web, code, a);
    var pb := PassProducts(web, code, b);
    InsertEachAppend(rows, pa, pb);
    var batch := Batch(web.products(code, DuplicatedCategory), DuplicatedCategory);
    assert a[..4] + [DuplicatedCategory] == a;
    assert pa == PassProducts(web, code, a[..4]) + batch;
    assert pa[|pa| - |batch|] == batch[0];
    assert [DuplicatedCategory] + b[1..] == b;
    PassProductsAppend(web, code, [DuplicatedCategory], b[1..]);
    assert PassProducts(web, code, [DuplicatedCategory]) == batch by {
      assert [DuplicatedCategory][..0] == [];
    }
    assert pb[0] == batch[0];
    InsertEachSpec(rows, pa);
  }

  /** A pass over distinct products none of which is stored yet inserts every one of them. */
  lemma {:induction false} InsertEachFresh(rows: map<LegacyKey, LegacyProduct>, ps: seq<LegacyProduct>)
    requires forall i :: 0 <= i < |ps| ==> ps[i].Key() !in rows
    requires forall i, j :: 0 <= i < j < |ps| ==> ps[i].Key() != ps[j].Key()
    ensures InsertEach(rows, ps).1
    decreases |ps|
  {
    if ps != [] {
      var next := rows[ps[0].Key() := ps[0]];
      forall i | 0 <= i < |ps[1..]| ensures ps[1..][i].Key() !in next {
        assert ps[1..][i] == ps[i + 1];
      }
      InsertEachFresh(next, ps[1..]);
    }
  }

  /**
   * The category list the handler uses names every category once: it is
   * the written list with the second 148031517 replaced by the missing
   * 148031511, and it holds exactly the 148031xxx categories of the
   * store's newer scraper (all but its last, 1263).
   */
  lemma CategoriesOnce()
    ensures Distinct(Categories) && !Distinct(CategoriesAsWritten)
    ensures |Categories| == |CategoriesAsWritten| &&
            forall i :: 0 <= i < |Categories| && i != 5 ==> Categories[i] == CategoriesAsWritten[i]
    ensures CategoriesAsWritten[5] == DuplicatedCategory && Categories[5] == MissingCategory &&
            MissingCategory !in CategoriesAsWritten
    ensures forall c :: c in Categories <==> c in TigrosScrapers.TigrosCategoryIds[..13]
  {
    assert CategoriesAsWritten[4] == CategoriesAsWritten[5];
    assert TigrosScrapers.TigrosCategoryIds[..13] == [
      "148031509", "148031507", "148031511", "148031512", "148031510", "148031517", "148031520",
      "148031516", "148031518", "148031514", "148031515", "148031508", "148031513"
    ];
  }

  /** The leaflet scan: `promoCode` is assigned before each test and the loop breaks on a listing leaflet. */
  method ScanLeaflets(web: LegacyTigrosWeb) returns (promoCode: int)
    ensures promoCode == PromoCode(web)
  {
    promoCode := -1;
    var i := 0;
    while i <= LastLeaflet
      invariant 0 <= i <= LastLeaflet + 1
      invariant promoCode == i - 1
      invariant i <= LastLeaflet ==> ScanFrom(web, i) == PromoCode(web)
      invariant i == LastLeaflet + 1 ==> PromoCode(web) == LastLeaflet
    {
      promoCode := i;
      if web.totItems(i) != 0 {
        break;
      }
      i := i + 1;
    }
  }

  /**
   * The inserts of one category page, continuing the pass `full` after its
   * products `done`; `ok` is false when an insert aborted, which ends the
   * pass.
   */
  method InsertPage(dao: LegacyProductDao, items: seq<LegacyTigrosItem>, category: string,
                    ghost rows0: map<LegacyKey, LegacyProduct>, ghost done: seq<LegacyProduct>,
                    ghost full: seq<LegacyProduct>) returns (ok: bool)
    requires dao.Valid()
    requires InsertEach(rows0, done) == (dao.rows, true)
    requires |done| + |items| <= |full| && full[..|done| + |items|] == done + Batch(items, category)
    modifies dao`rows
    ensures dao.Valid()
    ensures ok ==> InsertEach(rows0, done + Batch(items, category)) == (dao.rows, true)
    ensures !ok ==> InsertEach(rows0, full) == (dao.rows, false)
  {
    ghost var batch := Batch(items, category);
    assert done + batch[..0] == done;
    var j := 0;
    while j < |items|
      invariant 0 <= j <= |items|
      invariant dao.Valid()
      invariant InsertEach(rows0, done + batch[..j]) == (dao.rows, true)
    {
      var p := TigrosProduct(items[j], category);
      InsertEachAppend(rows0, done + batch[..j], [p]);
      assert done + batch[..j + 1] == done + batch[..j] + [p];
      var r := dao.InsertProduct(p);
      if r.Thrown? {
        assert full[..|done| + j + 1] == (done + batch)[..|done| + j + 1] == done + batch[..j + 1];
        AbortEnds(rows0, full, |done| + j + 1);
        return false;
      }
      j := j + 1;
    }
    assert batch[..|items|] == batch;
    return true;
  }

  /**
   * `getStoreDiscount`, with each category visited once: a store page that
   * does not answer 200 stops it with false and no writes; otherwise the
   * leaflet scan picks `PromoCode(web)` and the products of its category
   * pages are inserted in order, an insert on a taken key ending the pass
   * with the exception.
   */
  method GetStoreDiscount(dao: LegacyProductDao, web: LegacyTigrosWeb) returns (c: Completion<bool>)
    requires dao.Valid()
    modifies dao`rows
    ensures dao.Valid()
    ensures web.storeStatus != 200 ==> c == Returned(false) && dao.rows == old(dao.rows)
    ensures web.storeStatus == 200 ==>
              var (after, ok) := InsertEach(old(dao.rows), PassProducts(web, PromoCode(web), Categories));
              dao.rows == after && c == (if ok then Returned(true) else Thrown(ConstraintViolation))
  {
    if web.storeStatus != 200 {
      return Returned(false);
    }
    var promoCode := ScanLeaflets(web);
    if promoCode == -1 {
      // "no leaflet found": the scan has always assigned a code by now
      assert false;
    }
    ghost var rows0 := dao.rows;
    ghost var full := PassProducts(web, promoCode, Categories);
    var k := 0;
    while k < |Categories|
      invariant 0 <= k <= |Categories|
      invariant dao.Valid()
      invariant InsertEach(rows0, PassProducts(web, promoCode, Categories[..k])) == (dao.rows, true)
    {
      var category := Categories[k];
      var items := web.products(promoCode, category);
      ghost var done := PassProducts(web, promoCode, Categories[..k]);
      PassStep(web, promoCode, Categories, k);
      var ok := InsertPage(dao, items, category, rows0, done, full);
      if !ok {
        return Thrown(ConstraintViolation);
      }
      k := k + 1;
    }
    assert Categories[..|Categories|] == Categories;
    return Returned(true);
  }

  /** Products with distinct keys, none of them in `rows`. */
  predicate FreshAndDistinct(rows: map<LegacyKey, LegacyProduct>, ps: seq<LegacyProduct>) {
    (forall i :: 0 <= i < |ps| ==> ps[i].Key() !in rows) &&
    (forall i, j :: 0 <= i < j < |ps| ==> ps[i].Key() != ps[j].Key())
  }

  /**
   * With each category visited once, a leaflet whose products have distinct
   * names and are not stored yet is stored in full and the handler answers
   * true.
   */
  lemma FreshPassSucceeds(rows: map<LegacyKey, LegacyProduct>, web: LegacyTigrosWeb)
    requires FreshAndDistinct(rows, PassProducts(web, PromoCode(web), Categories))
    ensures InsertEach(rows, PassProducts(web, PromoCode(web), Categories)).1
    ensures var ps := PassProducts(web, PromoCode(web), Categories);
            var after := InsertEach(rows, ps).0;
            forall i :: 0 <= i < |ps| ==> ps[i].Key() in after && after[ps[i].Key()] == ps[i]
  {
    var ps := PassProducts(web, PromoCode(web), Categories);
    InsertEachFresh(rows, ps);
    InsertEachSpec(rows, ps);
    var after := InsertEach(rows, ps).0;
    forall i | 0 <= i < |ps| ensures after[ps[i].Key()] == ps[i] {
      var n :| 0 <= n < |ps| && ps[n] == after[ps[i].Key()] && ps[n].Key() == ps[i].Key();
    }
  }
}
