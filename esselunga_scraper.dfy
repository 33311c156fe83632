/**
 * service/stores/EsselungaScraperService.kt: a Selectable store bound to
 * one shop's flyer page.  The shop code comes from the page url; the
 * flyer's promo code from the page itself.  A promo code equal to the
 * stored one changes nothing; a new one replaces the ESSELUNGA catalogue
 * category by category, skipping the categories that do not answer 200.
 */
module EsselungaScrapers {
  import opened Results
  import opened Model
  import opened Text
  import opened ProductStorage
  import opened ProductsRepositories
  import opened StoresSettingsRepositories
  import opened Scraping

  /** `EsselungaCategory.idList`, in declaration order (the commented-out entries are not part of it). */
  const EsselungaCategoryIds: seq<string> := [
    "1769", "1770", "1771", "1774", "1781", "1773", "1772", "1778", "1777", "1775",
    "1776", "1779", "1780", "1788", "1782", "1790", "1786", "1784", "1783"
  ]

  /** `EsselungaCategory.categories`: the display name of each id, in the same order. */
  const EsselungaCategoryNames: seq<string> := [
    "Frutta e Verdura", "Pesce e Sushi", "Carne", "Latticini, Salumi e Formaggi", "Alimenti Vegetali",
    "Pane e Pasticceria", "Gastronomia e Piatti Pronti", "Patatine, Cioccolato e Caramelle", "Colazione",
    "Confezionati Alimentari", "Surgelati e Gelati", "Acqua, Birra e Bibite", "Vini e Liquori",
    "Igene, Cura Persona e Intimo", "Integratori e Sanitari", "Cura Casa", "Multimedia, Carte e Ricariche",
    "Amici Animali", "Mondo Bimbi"
  ]

  const FetchErrorMessage: string := "Error while fetching data from Esselunga"

  /** One entry of a category page's `items` array. */
  datatype EsselungaItem = EsselungaItem(title: string, prezzo: real, promoPrices: seq<real>,
                                         promotionName: string, discountPercentages: seq<string>,
                                         imgUrl: string)

  /**
   * The site as the scraper sees it: the flyer page at a url (its
   * `data-cod-promo` attribute as a number; `None` when that attribute does
   * not parse, which makes `toInt` raise) and the product page of a shop
   * code, category and promo code.
   */
  datatype EsselungaWeb = EsselungaWeb(flyer: string -> Response<int>,
                                       products: (string, string, int) -> Response<seq<EsselungaItem>>)

  /** The shop code of a flyer url: the upper-cased text after its last '.', once ".html" is dropped. */
  function StoreCode(url: string): string {
    ToUpper(SubstringAfterLast(RemoveSuffix(url, ".html"), '.'))
  }

  lemma RemoveHtml(x: string)
    ensures RemoveSuffix(x + ".html", ".html") == x
  {
    var s := x + ".html";
    assert s[|s| - 5..] == ".html";
  }

  /** The text after the last '.' of `prefix + "." + code` is `code` when `code` has no '.'. */
  lemma AfterLastDot(prefix: string, code: string)
    requires '.' !in code
    ensures SubstringAfterLast(prefix + "." + code, '.') == code
  {
    var s := prefix + "." + code;
    assert s[|prefix|] == '.';
    assert s[|s| - |code|..] == code;
  }

  /** A flyer url `<prefix>.<code>.html` yields the upper-cased `code`. */
  lemma StoreCodeOf(prefix: string, code: string)
    requires '.' !in code
    ensures StoreCode(prefix + "." + code + ".html") == ToUpper(code)
  {
    RemoveHtml(prefix + "." + code);
    AfterLastDot(prefix, code);
  }

  /** An item can be read: both promotion arrays have a first entry (else `getDouble(0)`/`getString(0)` raise). */
  predicate Readable(item: EsselungaItem) {
    |item.promoPrices| > 0 && |item.discountPercentages| > 0
  }

  /** The product built from a readable item. */
  function EsselungaProduct(item: EsselungaItem, category: string): Product
    requires Readable(item)
  {
    Product(Trim(item.title), Esselunga.Value(), Some(item.prezzo), item.promoPrices[0], category, false,
            Some(map["promotionName" := JText(item.promotionName),
                     "discountPercentage" := JText(item.discountPercentages[0]),
                     "imageUrl" := JText(item.imgUrl)]))
  }

  /**
   * Each product has a trimmed name, the ESSELUNGA id, an original price that
   * is always set, the first promotion price as discounted price, the
   * category id and no favourite mark.
   */
  lemma EsselungaProductSpec(item: EsselungaItem, category: string)
    requires Readable(item)
    ensures var p := EsselungaProduct(item, category);
      IsTrimmed(p.productName) && p.storeId == Esselunga.Value() && p.category == category && !p.isFavorite &&
      p.originalPrice == Some(item.prezzo) && p.discountedPrice == item.promoPrices[0] &&
      p.json.Some? && p.json.value.Keys == {"promotionName", "discountPercentage", "imageUrl"}
  {
  }

  /** The batch of a page, or `None` when one of its items cannot be read. */
  function EsselungaBatch(items: seq<EsselungaItem>, category: string): Option<seq<Product>> {
    if forall j :: 0 <= j < |items| ==> Readable(items[j]) then
      Some(seq(|items|, j requires 0 <= j < |items| && Readable(items[j]) => EsselungaProduct(items[j], category)))
    else None
  }

  /**
   * A category page: an empty batch when it does not answer 200 (the
   * category is skipped), `None` when reading it raises.
   */
  function CategoryPage(web: EsselungaWeb, storeCode: string, category: string, code: int): Option<seq<Product>> {
    match web.products(storeCode, category, code)
    case Raises => None
    case Responds(status, body) =>
      if status != 200 then Some([])
      else if body.None? then None
      else EsselungaBatch(body.value, category)
  }

  /** The pages of `categories`, in order. */
  function PagesOf(web: EsselungaWeb, storeCode: string, code: int, categories: seq<string>): (r: seq<Option<seq<Product>>>)
    ensures |r| == |categories|
    decreases |categories|
  {
    if categories == [] then []
    else PagesOf(web, storeCode, code, categories[..|categories| - 1]) +
           [CategoryPage(web, storeCode, categories[|categories| - 1], code)]
  }

  /** The `k`-th page is the page of the `k`-th category. */
  lemma {:induction false} PagesOfAt(web: EsselungaWeb, storeCode: string, code: int, categories: seq<string>, k: nat)
    requires k < |categories|
    ensures PagesOf(web, storeCode, code, categories)[k] == CategoryPage(web, storeCode, categories[k], code)
    decreases |categories|
  {
    if k < |categories| - 1 {
      PagesOfAt(web, storeCode, code, categories[..|categories| - 1], k);
    }
  }

  /** The pages of a pass: one per ESSELUNGA category. */
  function Pages(web: EsselungaWeb, storeCode: string, code: int): (r: seq<Option<seq<Product>>>)
    ensures |r| == |EsselungaCategoryIds|
  {
    PagesOf(web, storeCode, code, EsselungaCategoryIds)
  }

  /** What an ESSELUNGA row written by a pass looks like. */
  predicate IsEsselungaRow(p: Product) {
    IsTrimmed(p.productName) && p.storeId == Esselunga.Value() && !p.isFavorite &&
    p.category in EsselungaCategoryIds && p.originalPrice.Some?
  }

  /** Every product of a page that was read looks like an ESSELUNGA row of that pass. */
  lemma PageRows(web: EsselungaWeb, storeCode: string, code: int, i: nat)
    requires i < |EsselungaCategoryIds|
    requires Pages(web, storeCode, code)[i].Some?
    ensures forall j :: 0 <= j < |Pages(web, storeCode, code)[i].value| ==>
              IsEsselungaRow(Pages(web, storeCode, code)[i].value[j])
  {
    var category := EsselungaCategoryIds[i];
    var page := web.products(storeCode, category, code);
    PagesOfAt(web, storeCode, code, EsselungaCategoryIds, i);
    if page.Responds? && page.status == 200 {
      var items := page.body.value;
      var batch := EsselungaBatch(items, category).value;
      forall j | 0 <= j < |batch| ensures IsEsselungaRow(batch[j]) {
        EsselungaProductSpec(items[j], category);
      }
    }
  }

  /**
   * After a replacement pass the rows of other stores are as they were,
   * and every ESSELUNGA row is one the pass built, with its original price
   * set.  Conversely, when no two products read share a name, every product
   * read is stored.
   */
  lemma {:induction false} CatalogAfterPass(rows: map<Key, Row>, web: EsselungaWeb, storeCode: string, code: int)
    ensures var after := ApplyBatches(WithoutStore(rows, Esselunga.Value()), ReadPrefix(Pages(web, storeCode, code)));
      (forall k: Key :: k.1 != Esselunga.Value() ==> (k in after <==> k in rows) && (k in rows ==> after[k] == rows[k])) &&
      (forall k :: k in after && k.1 == Esselunga.Value() ==> IsEsselungaRow(after[k]))
    ensures DistinctKeys(ReadPrefix(Pages(web, storeCode, code))) ==>
              AllStored(ApplyBatches(WithoutStore(rows, Esselunga.Value()), ReadPrefix(Pages(web, storeCode, code))), ReadPrefix(Pages(web, storeCode, code)))
  {
    var pages := Pages(web, storeCode, code);
    var bs := ReadPrefix(pages);
    assert forall i, j :: 0 <= i < |bs| && 0 <= j < |bs[i]| ==> IsEsselungaRow(bs[i][j]) by {
      forall i | 0 <= i < |bs| ensures forall j :: 0 <= j < |bs[i]| ==> IsEsselungaRow(bs[i][j]) {
        assert pages[i] == Some(bs[i]);
        PageRows(web, storeCode, code, i);
      }
    }
    var base := WithoutStore(rows, Esselunga.Value());
    assert FreshFor(base, bs) by {
      assert AllOfStore(bs, Esselunga.Value());
    }
    ApplyBatchesSpec(base, bs, Esselunga.Value());
    var after := ApplyBatches(base, bs);
    forall k | k in after && k.1 == Esselunga.Value() ensures IsEsselungaRow(after[k]) {
      assert k !in base;
      var i, j :| 0 <= i < |bs| && 0 <= j < |bs[i]| && SameFields(after[k], bs[i][j]);
      assert IsEsselungaRow(bs[i][j]);
    }
  }

  /** The products of one category page in page order, or `None` at the first item that cannot be read. */
  method BuildBatch(items: seq<EsselungaItem>, category: string) returns (batch: Option<seq<Product>>)
    ensures batch == EsselungaBatch(items, category)
  {
    var products := [];
    var i := 0;
    while i < |items|
      invariant 0 <= i <= |items|
      invariant |products| == i
      invariant forall j :: 0 <= j < i ==> Readable(items[j]) && products[j] == EsselungaProduct(items[j], category)
    {
      if !Readable(items[i]) {
        return None;
      }
      var product := EsselungaProduct(items[i], category);
      products := products + [product];
      i := i + 1;
    }
    assert products == EsselungaBatch(items, category).value;
    return Some(products);
  }

  class EsselungaScraperService {
    const settings: StoresSettingsRepository
    const products: ProductsRepository

    constructor (settings: StoresSettingsRepository, products: ProductsRepository)
      ensures this.settings == settings && this.products == products
    {
      this.settings := settings;
      this.products := products;
    }

    /** `saveNewStore`: binds the ESSELUNGA entry to a store with promo code -1 and the url. */
    method SaveNewStore(url: string) returns (r: Result<()>)
      modifies settings`settings
      ensures Committed(old(settings.settings), Esselunga.Value(), InsertStore(Store(-1, url)), settings.faulty, r,
                        settings.settings)
    {
      r := settings.InsertStore(Esselunga.Value(), Store(-1, url));
    }

    /**
     * One category of the pass: a page that answers 200 has its batch
     * inserted, with the result ignored, and any other status is skipped;
     * nothing is written when reading the page or one of its items raises.
     */
    method InsertPage(storeCode: string, code: int, web: EsselungaWeb, k: nat) returns (read: bool)
      requires k < |EsselungaCategoryIds|
      requires products.dao.Valid() && !products.dao.faulty
      modifies products.dao
      ensures products.dao.Valid() && !products.dao.faulty
      ensures read <==> Pages(web, storeCode, code)[k].Some?
      ensures products.dao.rows == if read then AfterInsert(old(products.dao.rows), Pages(web, storeCode, code)[k].value)
                                   else old(products.dao.rows)
    {
      var category := EsselungaCategoryIds[k];
      PagesOfAt(web, storeCode, code, EsselungaCategoryIds, k);
      var page := web.products(storeCode, category, code);
      if page.Raises? || (page.status == 200 && page.body.None?) {
        return false;
      }
      if page.status == 200 {
        var batch := BuildBatch(page.body.value, category);
        if batch.None? {
          return false;
        }
        var _ := products.InsertAllProducts(batch.value);
      } else {
        assert ToRows([]) == [];
      }
      return true;
    }

    /**
     * The category loop of `getStoreDiscount`: a page that does not answer
     * 200 is skipped, each other page's batch is inserted with its result
     * ignored, and the first page that raises ends the pass.
     */
    method ReplaceCatalog(storeCode: string, code: int, web: EsselungaWeb) returns (r: Result<Option<int>>)
      requires products.dao.Valid() && !products.dao.faulty
      modifies products.dao
      ensures products.dao.Valid() && !products.dao.faulty
      ensures products.dao.rows == ApplyBatches(old(products.dao.rows), ReadPrefix(Pages(web, storeCode, code)))
      ensures r == if AllRead(Pages(web, storeCode, code)) then Success(Some(code))
                   else ServiceLayerError(UnknownServiceError(FetchErrorMessage))
    {
      ghost var base := products.dao.rows;
      ghost var pages := Pages(web, storeCode, code);
      var k := 0;
      while k < |EsselungaCategoryIds|
        invariant 0 <= k <= |EsselungaCategoryIds|
        invariant products.dao.Valid() && !products.dao.faulty
        invariant forall j :: 0 <= j < k ==> pages[j].Some?
        invariant products.dao.rows == ApplyBatches(base, ReadPrefix(pages[..k]))
      {
        var read := InsertPage(storeCode, code, web, k);
        if !read {
          ReadPrefixStops(pages, k);
          assert !AllRead(pages);
          return ServiceLayerError(UnknownServiceError(FetchErrorMessage));
        }
        ApplyReadPrefixExtend(base, pages, k);
        k := k + 1;
      }
      assert pages[..k] == pages;
      assert AllRead(pages);
      return Success(Some(code));
    }

    /**
     * `getStoreDiscount`: a flyer page that does not answer 200 is an
     * `IncorrectGetResponse` and a promo code equal to the stored one is
     * `Success(None)`, neither deleting anything; otherwise the ESSELUNGA
     * rows are deleted, and not restored when a later page raises.
     */
    method GetStoreDiscount(store: Store, web: EsselungaWeb) returns (r: Result<Option<int>>)
      requires products.dao.Valid()
      modifies products.dao
      ensures products.dao.Valid() && products.dao.faulty == old(products.dao.faulty)
      ensures (web.flyer(store.url).Raises? || (web.flyer(store.url).status == 200 && web.flyer(store.url).body.None?)) ==>
                r == ServiceLayerError(UnknownServiceError(FetchErrorMessage)) && products.dao.rows == old(products.dao.rows)
      ensures web.flyer(store.url).Responds? && web.flyer(store.url).status != 200 ==>
                r == ServiceLayerError(IncorrectGetResponse) && products.dao.rows == old(products.dao.rows)
      ensures web.flyer(store.url) == Responds(200, Some(store.codPromo)) ==>
                r == Success(None) && products.dao.rows == old(products.dao.rows)
      ensures (web.flyer(store.url).Responds? && web.flyer(store.url).status == 200 &&
               web.flyer(store.url).body.Some? && web.flyer(store.url).body.value != store.codPromo) ==>
                if old(products.dao.faulty) then
                  r == Error(UnknownRepositoryError("Error deleting products by store type")) &&
                  products.dao.rows == old(products.dao.rows)
                else
                  var code := web.flyer(store.url).body.value;
                  var pages := Pages(web, StoreCode(store.url), code);
                  products.dao.rows == ApplyBatches(WithoutStore(old(products.dao.rows), Esselunga.Value()), ReadPrefix(pages)) &&
                  r == if AllRead(pages) then Success(Some(code)) else ServiceLayerError(UnknownServiceError(FetchErrorMessage))
    {
      var storeCode := StoreCode(store.url);
      var response := web.flyer(store.url);
      if response.Raises? {
        return ServiceLayerError(UnknownServiceError(FetchErrorMessage));
      }
      if response.status != 200 {
        return ServiceLayerError(IncorrectGetResponse);
      }
      if response.body.None? {
        return ServiceLayerError(UnknownServiceError(FetchErrorMessage));
      }
      var code := response.body.value;
      if code == store.codPromo {
        return Success(None);
      }
      var deleted := products.DeleteProductsByStoreType(Esselunga.Value());
      if deleted.Error? {
        return Error(deleted.error);
      }
      ghost var cleared := products.dao.rows;
      r := ReplaceCatalog(storeCode, code, web);
      assert products.dao.rows == ApplyBatches(cleared, ReadPrefix(Pages(web, storeCode, code)));
    }
  }
}
