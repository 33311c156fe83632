/**
 * service/StoresServiceHandler.kt: registers the three scrapers, seeds the
 * per-store settings, and runs retrievals under an Idle/Running flag.  A
 * retrieval asks one scraper for its discounts and then records the result
 * in the settings: the store it was given (Toggle stores only) and the new
 * promo code, when the scraper reports one.
 */
module StoresService {
  import opened Results
  import opened Model
  import opened ProductStorage
  import opened ProductsRepositories
  import opened StoresSettingsRepositories
  import opened Scraping
  import opened TigrosScrapers
  import opened EsselungaScrapers
  import opened CarrefourScrapers

  /** The settings schema version the handler seeds. */
  const Version: int := 1

  const SettingsNotFoundMessage: string := "Store Settings not found"

  /** `StoresRetrievingState` */
  datatype RetrievingState = Idle | Running

  /** The three sites, as the scrapers see them. */
  datatype Sites = Sites(esselunga: EsselungaWeb, carrefour: CarrefourWeb, tigros: TigrosWeb)

  /** The registered scrapers, in the order the map was built (and so the order `values` visits them). */
  const RegistrationOrder: seq<StoreId> := [Esselunga, Carrefour, Tigros]

  /** The `scrapers` map once registered: store id value to scraper. */
  const Registered: map<int, StoreId> := map[0 := Esselunga, 1 := Carrefour, 2 := Tigros]

  /** The `storeType` of each scraper. */
  function TypeOf(scraper: StoreId): StoreType {
    if scraper == Esselunga then Selectable else Toggle
  }

  /** The entries seeded for `scrapers`: one per scraper, typed, with no store. */
  function SeedEntries(scrapers: seq<StoreId>): map<int, StoreSettings>
    decreases |scrapers|
  {
    if scrapers == [] then map[]
    else
      var last := scrapers[|scrapers| - 1];
      SeedEntries(scrapers[..|scrapers| - 1])[last.Value() := StoreSettings(TypeOf(last), None)]
  }

  /** The settings `initializeHandlers` writes when the stored version is not `Version`. */
  function SeededSettings(): StoresSettings {
    StoresSettings(SeedEntries(RegistrationOrder), Version)
  }

  lemma {:induction false} SeedEntriesSpec(scrapers: seq<StoreId>)
    ensures forall id :: id in SeedEntries(scrapers) <==> exists j :: 0 <= j < |scrapers| && scrapers[j].Value() == id
    ensures forall j :: 0 <= j < |scrapers| ==>
              SeedEntries(scrapers)[scrapers[j].Value()] == StoreSettings(TypeOf(scrapers[j]), None)
    decreases |scrapers|
  {
    if scrapers != [] {
      var front := scrapers[..|scrapers| - 1];
      SeedEntriesSpec(front);
      forall id ensures id in SeedEntries(scrapers) <==> exists j :: 0 <= j < |scrapers| && scrapers[j].Value() == id {
        if id in SeedEntries(front) {
          var j :| 0 <= j < |front| && front[j].Value() == id;
          assert scrapers[j] == front[j];
        }
      }
      forall j | 0 <= j < |scrapers| - 1
        ensures SeedEntries(scrapers)[scrapers[j].Value()] == StoreSettings(TypeOf(scrapers[j]), None)
      {
        assert scrapers[j] == front[j];
        if scrapers[j].Value() == scrapers[|scrapers| - 1].Value() {
          assert scrapers[j] == scrapers[|scrapers| - 1];
        }
      }
    }
  }

  /**
   * The seeded settings hold exactly one entry per registered scraper, typed
   * with that scraper's type and with no store bound, at version 1; and they
   * are not the default instance, so the settings count as initialised.
   */
  lemma SeededSettingsSpec()
    ensures SeededSettings().version == Version
    ensures SeededSettings().entries.Keys == Registered.Keys
    ensures forall id :: id in Registered ==>
              SeededSettings().entries[id] == StoreSettings(TypeOf(Registered[id]), None)
    ensures SeededSettings() != DefaultStoresSettings
  {
    SeedEntriesSpec(RegistrationOrder);
    assert RegistrationOrder[0].Value() == 0 && RegistrationOrder[1].Value() == 1 && RegistrationOrder[2].Value() == 2;
    forall id | id in SeededSettings().entries ensures id in Registered {
      var j :| 0 <= j < |RegistrationOrder| && RegistrationOrder[j].Value() == id;
    }
  }

  /** The ids a full pass retrieves, in order: the registered ones whose entry in `s` has a store. */
  function Bound(s: StoresSettings, ids: seq<int>): (r: seq<int>)
    ensures |r| <= |ids|
    decreases |ids|
  {
    if ids == [] then []
    else
      var last := ids[|ids| - 1];
      Bound(s, ids[..|ids| - 1]) + (if last in s.entries && s.entries[last].store.Some? then [last] else [])
  }

  /** `RegistrationOrder` as store id values. */
  const RegistrationIds: seq<int> :=
    seq(|RegistrationOrder|, i requires 0 <= i < |RegistrationOrder| => RegistrationOrder[i].Value())

  /** A pass retrieves every bound registered store and no other. */
  lemma {:induction false} BoundSpec(s: StoresSettings, ids: seq<int>)
    ensures forall id :: id in Bound(s, ids) <==> id in ids && id in s.entries && s.entries[id].store.Some?
    decreases |ids|
  {
    if ids != [] {
      var front := ids[..|ids| - 1];
      BoundSpec(s, front);
      var r := Bound(s, ids);
      forall id ensures id in r <==> id in ids && id in s.entries && s.entries[id].store.Some? {
        if id in ids && id !in front {
          assert id == ids[|ids| - 1];
        }
        if id in front {
          var j :| 0 <= j < |front| && front[j] == id;
          assert ids[j] == id;
        }
      }
    }
  }

  /** `x` comes before `y` in `ids`. */
  ghost predicate Precedes(ids: seq<int>, x: int, y: int)
  {
    exists a, b :: 0 <= a < b < |ids| && ids[a] == x && ids[b] == y
  }

  /** A pass retrieves the bound stores in registration order. */
  lemma {:induction false} BoundOrder(s: StoresSettings, ids: seq<int>)
    ensures forall i, j :: 0 <= i < j < |Bound(s, ids)| ==> Precedes(ids, Bound(s, ids)[i], Bound(s, ids)[j])
    decreases |ids|
  {
    if ids != [] {
      var front := ids[..|ids| - 1];
      BoundOrder(s, front);
      BoundSpec(s, front);
      var r := Bound(s, ids);
      var rf := Bound(s, front);
      var last := ids[|ids| - 1];
      assert r == rf + (if last in s.entries && s.entries[last].store.Some? then [last] else []);
      forall i, j | 0 <= i < j < |r|
        ensures Precedes(ids, r[i], r[j])
      {
        assert r[i] == rf[i];
        if j < |rf| {
          assert r[j] == rf[j];
          assert Precedes(front, rf[i], rf[j]);
          var a, b :| 0 <= a < b < |front| && front[a] == rf[i] && front[b] == rf[j];
          assert ids[a] == r[i] && ids[b] == r[j];
        } else {
          assert rf[i] in rf;
          var a :| 0 <= a < |front| && front[a] == rf[i];
          assert ids[a] == r[i] && ids[|ids| - 1] == r[j];
        }
      }
    }
  }

  /** What `retrieveProducts` records once the scraper has answered `d`. */
  datatype Settled = Settled(result: Result<()>, settings: StoresSettings, clearsProducts: bool)

  /**
   * The settings side of `retrieveProducts` after the scraper answered `d`,
   * from the settings `before` it read: a scraper error is handed back
   * unchanged; a store given explicitly is refused for a Selectable scraper
   * and otherwise enabled, a failed enable clearing the store's products;
   * then a reported promo code is stored with `updatePromoCode`.
   */
  function Settle(before: StoresSettings, storeId: int, store: Option<Store>, storeType: StoreType,
                  d: Result<Option<int>>): (s: Settled)
    ensures d.Error? ==> s == Settled(Error(d.error), before, false)
    ensures d.ServiceLayerError? ==> s == Settled(ServiceLayerError(d.serviceError), before, false)
    ensures !s.result.ServiceLayerError? <==> !d.ServiceLayerError?
    ensures d.Success? && store.Some? && storeType == Selectable ==>
              s == Settled(Error(UnknownRepositoryError("Store wrong type")), before, false)
    ensures s.clearsProducts <==>
              d.Success? && store.Some? && storeType == Toggle && !Apply(before, storeId, EnableStore(store.value)).Success?
    ensures s.clearsProducts ==> s.settings == before && s.result == Error(Apply(before, storeId, EnableStore(store.value)).error)
    ensures d.Success? && d.data.None? && store.None? ==> s == Settled(Success(()), before, false)
  {
    match d
    case Error(e) => Settled(Error(e), before, false)
    case ServiceLayerError(e) => Settled(ServiceLayerError(e), before, false)
    case Success(code) =>
      if store.Some? && storeType == Selectable then Settled(Error(UnknownRepositoryError("Store wrong type")), before, false)
      else
        var enabled := if store.None? then Success(before) else Apply(before, storeId, EnableStore(store.value));
        if !enabled.Success? then
          assert store.Some? && storeType == Toggle;
          Settled(Error(enabled.error), before, true)
        else if code.None? then Settled(Success(()), enabled.data, false)
        else
          var updated := Apply(enabled.data, storeId, UpdatePromoCode(code.value));
          if updated.Success? then Settled(Success(()), updated.data, false)
          else Settled(Error(updated.error), enabled.data, false)
  }

  /**
   * A promo code reported for a bound store is stored in its entry and
   * nothing else changes; a retrieval with no code leaves the settings as
   * they were.
   */
  lemma {:induction false} SettleRecordsPromoCode(before: StoresSettings, storeId: int, code: int)
    requires before != DefaultStoresSettings && storeId in before.entries && before.entries[storeId].store.Some?
    ensures var s := Settle(before, storeId, None, Toggle, Success(Some(code)));
      s.result == Success(()) && s.settings.version == before.version &&
      s.settings.entries.Keys == before.entries.Keys &&
      s.settings.entries[storeId].store == Some(before.entries[storeId].store.value.(codPromo := code)) &&
      (forall id :: id in before.entries && id != storeId ==> s.settings.entries[id] == before.entries[id])
  {
    ApplyStore(before, storeId, UpdatePromoCode(code));
  }

  /**
   * A store given explicitly to a Toggle scraper is bound, and its promo
   * code, when one is reported, is the one stored.
   */
  lemma {:induction false} SettleBindsGivenStore(before: StoresSettings, storeId: int, store: Store, d: Result<Option<int>>)
    requires d.Success?
    requires before != DefaultStoresSettings && storeId in before.entries && before.entries[storeId].storeType == Toggle
    ensures var s := Settle(before, storeId, Some(store), Toggle, d);
      s.result == Success(()) && !s.clearsProducts && s.settings.entries.Keys == before.entries.Keys &&
      s.settings.entries[storeId].store == Some(if d.data.Some? then store.(codPromo := d.data.value) else store)
  {
    var enabled := Apply(before, storeId, EnableStore(store));
    ApplyStore(before, storeId, EnableStore(store));
    if d.data.Some? {
      ApplyStore(enabled.data, storeId, UpdatePromoCode(d.data.value));
    }
  }

  /**
   * A catalogue replacement as the scrapers run it: the store's rows are
   * deleted (an unusable database fails here and changes nothing), then the
   * pages are inserted up to the first one that raises; a full read reports
   * `code`.
   */
  function Replacement(rows: map<Key, Row>, faulty: bool, storeId: int, pages: seq<Option<seq<Product>>>,
                       code: Option<int>, fetchError: string): (o: (Result<Option<int>>, map<Key, Row>))
    ensures faulty ==> o == (Error(UnknownRepositoryError("Error deleting products by store type")), rows)
    ensures !faulty ==> o.1 == ApplyBatches(WithoutStore(rows, storeId), ReadPrefix(pages))
    ensures !faulty ==> (o.0 == Success(code) <==> AllRead(pages))
    ensures !faulty && !AllRead(pages) ==> o.0 == ServiceLayerError(UnknownServiceError(fetchError))
  {
    if faulty then (Error(UnknownRepositoryError("Error deleting products by store type")), rows)
    else
      (if AllRead(pages) then Success(code) else ServiceLayerError(UnknownServiceError(fetchError)),
       ApplyBatches(WithoutStore(rows, storeId), ReadPrefix(pages)))
  }

  /**
   * What the scraper registered as `scraper` answers from `getStoreDiscount`
   * for `target`, and the product table it leaves, starting from `rows` on a
   * database that is unusable when `faulty`.
   */
  function ScraperOutcome(scraper: StoreId, target: Store, sites: Sites, rows: map<Key, Row>, faulty: bool)
    : (o: (Result<Option<int>>, map<Key, Row>))
    requires scraper != Unknown
  {
    match scraper
    case Esselunga =>
      var response := sites.esselunga.flyer(target.url);
      if response.Raises? then (ServiceLayerError(UnknownServiceError(EsselungaScrapers.FetchErrorMessage)), rows)
      else if response.status != 200 then (ServiceLayerError(IncorrectGetResponse), rows)
      else if response.body.None? then (ServiceLayerError(UnknownServiceError(EsselungaScrapers.FetchErrorMessage)), rows)
      else if response.body.value == target.codPromo then (Success(None), rows)
      else
        var code := response.body.value;
        Replacement(rows, faulty, Esselunga.Value(), EsselungaScrapers.Pages(sites.esselunga, StoreCode(target.url), code),
                    Some(code), EsselungaScrapers.FetchErrorMessage)
    case Carrefour =>
      Replacement(rows, faulty, Carrefour.Value(), CarrefourScrapers.Pages(sites.carrefour), None,
                  CarrefourScrapers.FetchErrorMessage)
    case Tigros =>
      match Discover(sites.tigros, target.codPromo)
      case Failed => (ServiceLayerError(UnknownServiceError(TigrosScrapers.FetchErrorMessage)), rows)
      case NotFound => (ServiceLayerError(FlyerNotFound), rows)
      case Found(code) =>
        if code == target.codPromo then (Success(None), rows)
        else Replacement(rows, faulty, Tigros.Value(), TigrosScrapers.Pages(sites.tigros, code), Some(code),
                         TigrosScrapers.FetchErrorMessage)
  }

  /**
   * A scraper touches only its own store's rows; an unusable database is
   * left as it was; a repository error can only be the failed deletion;
   * CARREFOUR never reports a promo code, and ESSELUNGA and TIGROS report
   * one only when it differs from the store's and the whole new catalogue
   * was read, leaving the table untouched when they report none.
   */
  lemma ScraperOutcomeSpec(scraper: StoreId, target: Store, sites: Sites, rows: map<Key, Row>, faulty: bool)
    requires scraper != Unknown
    ensures var o := ScraperOutcome(scraper, target, sites, rows, faulty);
      forall k: Key :: k.1 != scraper.Value() ==> (k in o.1 <==> k in rows) && (k in rows ==> o.1[k] == rows[k])
    ensures faulty ==> ScraperOutcome(scraper, target, sites, rows, faulty).1 == rows
    ensures var o := ScraperOutcome(scraper, target, sites, rows, faulty);
      o.0.Error? ==> faulty && o.0 == Error(UnknownRepositoryError("Error deleting products by store type"))
    ensures scraper == Carrefour ==> !ScraperOutcome(scraper, target, sites, rows, faulty).0.Success? ||
                                     ScraperOutcome(scraper, target, sites, rows, faulty).0.data.None?
    ensures var o := ScraperOutcome(scraper, target, sites, rows, faulty);
      scraper != Carrefour && o.0 == Success(None) ==> o.1 == rows
    ensures var o := ScraperOutcome(scraper, target, sites, rows, faulty);
      o.0.Success? && o.0.data.Some? ==> !faulty && o.0.data.value != target.codPromo
  {
    match scraper
    case Esselunga =>
      EsselungaOutcomeSound(target, sites, rows, faulty);
    case Carrefour =>
      CarrefourOutcomeSound(target, sites, rows, faulty);
    case Tigros =>
      TigrosOutcomeSound(target, sites, rows, faulty);
  }

  /** The properties `ScraperOutcomeSpec` states of one scraper's outcome `o`. */
  ghost predicate OutcomeSound(scraper: StoreId, target: Store, rows: map<Key, Row>, faulty: bool,
                               o: (Result<Option<int>>, map<Key, Row>))
  {
    (forall k: Key :: k.1 != scraper.Value() ==> (k in o.1 <==> k in rows) && (k in rows ==> o.1[k] == rows[k])) &&
    (faulty ==> o.1 == rows) &&
    (o.0.Error? ==> faulty && o.0 == Error(UnknownRepositoryError("Error deleting products by store type"))) &&
    (scraper == Carrefour ==> !o.0.Success? || o.0.data.None?) &&
    (scraper != Carrefour && o.0 == Success(None) ==> o.1 == rows) &&
    (o.0.Success? && o.0.data.Some? ==> !faulty && o.0.data.value != target.codPromo)
  }

  lemma EsselungaOutcomeSound(target: Store, sites: Sites, rows: map<Key, Row>, faulty: bool)
    ensures OutcomeSound(Esselunga, target, rows, faulty, ScraperOutcome(Esselunga, target, sites, rows, faulty))
  {
    var response := sites.esselunga.flyer(target.url);
    var o := ScraperOutcome(Esselunga, target, sites, rows, faulty);
    if response.Responds? && response.status == 200 && response.body.Some? && response.body.value != target.codPromo {
      var code := response.body.value;
      var pages := EsselungaScrapers.Pages(sites.esselunga, StoreCode(target.url), code);
      assert o == Replacement(rows, faulty, Esselunga.Value(), pages, Some(code), EsselungaScrapers.FetchErrorMessage);
      EsselungaScrapers.CatalogAfterPass(rows, sites.esselunga, StoreCode(target.url), code);
    } else {
      assert o.1 == rows && !o.0.Error? && (o.0.Success? ==> o.0.data.None?);
    }
  }

  lemma CarrefourOutcomeSound(target: Store, sites: Sites, rows: map<Key, Row>, faulty: bool)
    ensures OutcomeSound(Carrefour, target, rows, faulty, ScraperOutcome(Carrefour, target, sites, rows, faulty))
  {
    CarrefourScrapers.CatalogAfterPass(rows, sites.carrefour);
  }

  lemma TigrosOutcomeSound(target: Store, sites: Sites, rows: map<Key, Row>, faulty: bool)
    ensures OutcomeSound(Tigros, target, rows, faulty, ScraperOutcome(Tigros, target, sites, rows, faulty))
  {
    var found := Discover(sites.tigros, target.codPromo);
    if found.Found? && found.code != target.codPromo {
      TigrosScrapers.CatalogAfterPass(rows, sites.tigros, found.code);
    }
  }


  /**
   * One store of a full pass, on readable settings `cur` and a registered
   * `scrapers` map: `retrieveProducts` with no store given.  A missing entry
   * fails the `require`, an unregistered id is "Store not found", and
   * otherwise the scraper runs on the entry's store and `Settle` records its
   * answer.  The result, the settings and the product table it leaves.
   */
  function PassStep(cur: StoresSettings, rows: map<Key, Row>, faulty: bool, storeId: int, sites: Sites)
    : (o: (Completion<Result<()>>, StoresSettings, map<Key, Row>))
    ensures o.0.Thrown? <==> storeId !in cur.entries
    ensures o.0.Returned? && o.0.result.ServiceLayerError? ==> o.1 == cur
  {
    if storeId !in cur.entries then (Thrown(IllegalArgument(SettingsNotFoundMessage)), cur, rows)
    else if storeId !in Registered then (Returned(ServiceLayerError(UnknownServiceError("Store not found"))), cur, rows)
    else
      var scraper := Registered[storeId];
      assert scraper != Unknown;
      var outcome := ScraperOutcome(scraper, cur.entries[storeId].StoreOrDefault(), sites, rows, faulty);
      var s := Settle(cur, storeId, None, TypeOf(scraper), outcome.0);
      (Returned(s.result), s.settings, outcome.1)
  }

  /**
   * What a full pass leaves behind: its result, the settings and product
   * table after it, and the stores it retrieved, in order.
   */
  datatype PassOutcome = PassOutcome(result: Completion<Result<()>>, settings: StoresSettings, rows: map<Key, Row>,
                                     retrieved: seq<int>)

  /**
   * The loop of `retrieveFromAllStores` over `ids`, checking each id against
   * the `snapshot` it read first: a missing entry fails the `require`, an
   * entry without a store is skipped, and a bound one is retrieved by
   * `PassStep` on the current settings and table; a throw or an `Error`
   * ends the pass with that outcome, anything else goes on.
   */
  function Pass(snapshot: StoresSettings, ids: seq<int>, cur: StoresSettings, rows: map<Key, Row>, faulty: bool,
                sites: Sites): (p: PassOutcome)
    decreases |ids|
  {
    if ids == [] then PassOutcome(Returned(Success(())), cur, rows, [])
    else if ids[0] !in snapshot.entries then PassOutcome(Thrown(IllegalArgument(SettingsNotFoundMessage)), cur, rows, [])
    else if snapshot.entries[ids[0]].store.None? then Pass(snapshot, ids[1..], cur, rows, faulty, sites)
    else
      var step := PassStep(cur, rows, faulty, ids[0], sites);
      if step.0.Thrown? || step.0.result.Error? then PassOutcome(step.0, step.1, step.2, [ids[0]])
      else
        var rest := Pass(snapshot, ids[1..], step.1, step.2, faulty, sites);
        PassOutcome(rest.result, rest.settings, rest.rows, [ids[0]] + rest.retrieved)
  }

  /** `Bound`, read from the front: the first id's contribution, then the rest's. */
  lemma {:induction false} BoundCons(s: StoresSettings, ids: seq<int>)
    requires ids != []
    ensures Bound(s, ids) ==
              (if ids[0] in s.entries && s.entries[ids[0]].store.Some? then [ids[0]] else []) + Bound(s, ids[1..])
    decreases |ids|
  {
    if |ids| > 1 {
      var front := ids[..|ids| - 1];
      BoundCons(s, front);
      assert front[0] == ids[0];
      assert front[1..] == ids[1..][..|ids[1..]| - 1];
      assert ids[1..][|ids[1..]| - 1] == ids[|ids| - 1];
    }
  }

  /** Every id has an entry in the settings. */
  ghost predicate AllEntered(s: StoresSettings, ids: seq<int>)
  {
    forall id :: id in ids ==> id in s.entries
  }

  /**
   * The stores a pass retrieves are a prefix of the bound ones, in
   * registration order: all of them when it succeeds, which needs every id
   * to have an entry.  It throws only for a missing entry, and a returned
   * failure is always an `Error` from a store it retrieved: a
   * `ServiceLayerError` never ends the pass.
   */
  lemma {:induction false} PassTrace(snapshot: StoresSettings, ids: seq<int>, cur: StoresSettings,
                                     rows: map<Key, Row>, faulty: bool, sites: Sites)
    ensures Pass(snapshot, ids, cur, rows, faulty, sites).retrieved <= Bound(snapshot, ids)
    ensures var p := Pass(snapshot, ids, cur, rows, faulty, sites);
      p.result == Returned(Success(())) ==>
        p.retrieved == Bound(snapshot, ids) && AllEntered(snapshot, ids)
    ensures var p := Pass(snapshot, ids, cur, rows, faulty, sites);
      p.result.Returned? && !p.result.result.Success? ==> p.result.result.Error? && p.retrieved != []
    ensures var p := Pass(snapshot, ids, cur, rows, faulty, sites);
      p.result.Thrown? ==>
        p.result.crash == IllegalArgument(SettingsNotFoundMessage) &&
        (p.retrieved != [] || exists i :: 0 <= i < |ids| && ids[i] !in snapshot.entries)
    decreases |ids|
  {
    if ids != [] {
      BoundCons(snapshot, ids);
      if ids[0] in snapshot.entries {
        var p := Pass(snapshot, ids, cur, rows, faulty, sites);
        if snapshot.entries[ids[0]].store.None? {
          PassTrace(snapshot, ids[1..], cur, rows, faulty, sites);
          forall id | id in ids[1..] ensures id in ids {
            var j :| 0 <= j < |ids[1..]| && ids[1..][j] == id;
            assert ids[j + 1] == id;
          }
          if p.result.Thrown? && p.retrieved == [] {
            var i :| 0 <= i < |ids[1..]| && ids[1..][i] !in snapshot.entries;
            assert ids[i + 1] !in snapshot.entries;
          }
          if p.result == Returned(Success(())) {
            forall id | id in ids ensures id in snapshot.entries {
              if id != ids[0] {
                var j :| 0 <= j < |ids| && ids[j] == id;
                assert ids[1..][j - 1] == id;
              }
            }
          }
        } else {
          var step := PassStep(cur, rows, faulty, ids[0], sites);
          if !(step.0.Thrown? || step.0.result.Error?) {
            PassTrace(snapshot, ids[1..], step.1, step.2, faulty, sites);
            forall id | id in ids[1..] ensures id in ids {
              var j :| 0 <= j < |ids[1..]| && ids[1..][j] == id;
              assert ids[j + 1] == id;
            }
            if p.result == Returned(Success(())) {
              forall id | id in ids ensures id in snapshot.entries {
                if id != ids[0] {
                  var j :| 0 <= j < |ids| && ids[j] == id;
                  assert ids[1..][j - 1] == id;
                }
              }
            }
          }
        }
      } else {
        assert ids[0] !in snapshot.entries;
      }
    }
  }

  /** One store's retrieval changes only that store's rows. */
  lemma PassStepKeepsOtherStores(cur: StoresSettings, rows: map<Key, Row>, faulty: bool, storeId: int, sites: Sites)
    ensures var o := PassStep(cur, rows, faulty, storeId, sites);
      forall k: Key :: k.1 != storeId ==> (k in o.2 <==> k in rows) && (k in rows ==> o.2[k] == rows[k])
  {
    if storeId in cur.entries && storeId in Registered {
      var scraper := Registered[storeId];
      assert scraper != Unknown && scraper.Value() == storeId;
      ScraperOutcomeSpec(scraper, cur.entries[storeId].StoreOrDefault(), sites, rows, faulty);
    }
  }

  /**
   * A full pass changes only the rows of the stores it retrieves: a store
   * whose snapshot entry has no store keeps its rows, whatever the others
   * do.
   */
  lemma {:induction false} PassKeepsOtherStores(snapshot: StoresSettings, ids: seq<int>, cur: StoresSettings,
                                                rows: map<Key, Row>, faulty: bool, sites: Sites)
    ensures var p := Pass(snapshot, ids, cur, rows, faulty, sites);
      forall k: Key :: k.1 !in Bound(snapshot, ids) ==> (k in p.rows <==> k in rows) && (k in rows ==> p.rows[k] == rows[k])
    decreases |ids|
  {
    if ids != [] && ids[0] in snapshot.entries {
      BoundSpec(snapshot, ids);
      BoundSpec(snapshot, ids[1..]);
      forall id | id in Bound(snapshot, ids[1..]) ensures id in Bound(snapshot, ids) {
        assert id in ids[1..];
        var j :| 0 <= j < |ids[1..]| && ids[1..][j] == id;
        assert ids[j + 1] == id;
      }
      if snapshot.entries[ids[0]].store.None? {
        PassKeepsOtherStores(snapshot, ids[1..], cur, rows, faulty, sites);
      } else {
        var step := PassStep(cur, rows, faulty, ids[0], sites);
        assert ids[0] in Bound(snapshot, ids);
        PassStepKeepsOtherStores(cur, rows, faulty, ids[0], sites);
        if !(step.0.Thrown? || step.0.result.Error?) {
          PassKeepsOtherStores(snapshot, ids[1..], step.1, step.2, faulty, sites);
        }
      }
    }
  }

  /** `getStoreCategory`: the (id, display name) pairs of a store's categories; `UNKNOWN` raises. */
  function GetStoreCategory(storeId: StoreId): (c: Completion<seq<(string, string)>>)
    ensures c.Thrown? <==> storeId == Unknown
    ensures c.Thrown? ==> c.crash == IllegalArgument("Store not found")
    ensures storeId == Esselunga ==> (c.Returned? && |c.result| == |EsselungaCategoryIds| &&
              forall i :: 0 <= i < |c.result| ==> c.result[i] == (EsselungaCategoryIds[i], EsselungaCategoryNames[i]))
    ensures storeId == Tigros ==> (c.Returned? && |c.result| == |TigrosCategoryIds| &&
              forall i :: 0 <= i < |c.result| ==> c.result[i] == (TigrosCategoryIds[i], TigrosCategoryNames[i]))
    ensures storeId == Carrefour ==> (c.Returned? && |c.result| == |CarrefourCategories| &&
              forall i :: 0 <= i < |c.result| ==>
                c.result[i] == (CarrefourCategories[i].id, CarrefourCategories[i].displayName))
  {
    match storeId
    case Esselunga =>
      Returned(seq(|EsselungaCategoryIds|, i requires 0 <= i < |EsselungaCategoryIds| =>
                 (EsselungaCategoryIds[i], EsselungaCategoryNames[i])))
    case Carrefour =>
      Returned(seq(|CarrefourCategories|, i requires 0 <= i < |CarrefourCategories| =>
                 (CarrefourCategories[i].id, CarrefourCategories[i].displayName)))
    case Tigros =>
      Returned(seq(|TigrosCategoryIds|, i requires 0 <= i < |TigrosCategoryIds| =>
                 (TigrosCategoryIds[i], TigrosCategoryNames[i])))
    case Unknown => Thrown(IllegalArgument("Store not found"))
  }

  class StoresServiceHandler {
    /** `storesRetrievingState` */
    var state: RetrievingState
    /** The `lateinit` `scrapers` map: `None` until `initializeHandlers` sets it. */
    var scrapers: Option<map<int, StoreId>>

    const settings: StoresSettingsRepository
    const products: ProductsRepository
    const esselunga: EsselungaScraperService
    const carrefour: CarrefourScraperService
    const tigros: TigrosScraperService

    /** The scrapers share the handler's repositories, and a set map is the registered one. */
    ghost predicate Valid()
      reads this
    {
      esselunga.settings == settings && esselunga.products == products &&
      carrefour.products == products && tigros.products == products &&
      (scrapers.Some? ==> scrapers.value == Registered)
    }

    constructor (settings: StoresSettingsRepository, products: ProductsRepository)
      ensures Valid() && state == Idle && scrapers.None?
      ensures this.settings == settings && this.products == products
    {
      this.settings := settings;
      this.products := products;
      esselunga := new EsselungaScraperService(settings, products);
      carrefour := new CarrefourScraperService(products);
      tigros := new TigrosScraperService(products);
      state := Idle;
      scrapers := None;
    }

    /**
     * `initializeHandlers`: once `scrapers` is set, nothing.  Otherwise it
     * registers the three scrapers and, unless the stored version is
     * already `Version`, overwrites the settings with the seeded ones.  An
     * unreadable DataStore fails the `as Result.Success` cast.
     */
    method InitializeHandlers() returns (c: Completion<()>)
      requires Valid()
      modifies this`scrapers, settings`settings
      ensures Valid()
      ensures old(scrapers).Some? ==> c == Returned(()) && scrapers == old(scrapers) && settings.settings == old(settings.settings)
      ensures old(scrapers).None? ==> scrapers == Some(Registered)
      ensures old(scrapers).None? && settings.faulty ==> c == Thrown(ClassCast) && settings.settings == old(settings.settings)
      ensures old(scrapers).None? && !settings.faulty && old(settings.settings).version == Version ==>
                c == Returned(()) && settings.settings == old(settings.settings)
      ensures old(scrapers).None? && !settings.faulty && old(settings.settings).version != Version ==>
                c == Returned(()) && settings.settings == SeededSettings()
    {
      if scrapers.Some? {
        return Returned(());
      }
      scrapers := Some(Registered);
      var data := settings.GetStoresSettings();
      if !data.Success? {
        return Thrown(ClassCast);
      }
      if data.data.version == Version {
        return Returned(());
      }
      var entries := map[];
      for i := 0 to |RegistrationOrder|
        invariant entries == SeedEntries(RegistrationOrder[..i])
      {
        var scraper := RegistrationOrder[i];
        assert RegistrationOrder[..i + 1][..i] == RegistrationOrder[..i];
        entries := entries[scraper.Value() := StoreSettings(TypeOf(scraper), None)];
      }
      assert RegistrationOrder[..|RegistrationOrder|] == RegistrationOrder;
      var _ := settings.InitializeStoresSettings(StoresSettings(entries, Version));
      return Returned(());
    }

    /**
     * The registered scraper's `getStoreDiscount`: its answer and the table
     * it leaves are the `ScraperOutcome`, so only the scraper's own store's
     * rows change; CARREFOUR never reports a new promotion code, and the
     * others report one only when it differs from the store's.
     */
    method Discount(scraper: StoreId, target: Store, sites: Sites) returns (discount: Result<Option<int>>)
      requires Valid() && products.dao.Valid() && scraper != Unknown
      modifies products.dao
      ensures products.dao.Valid() && products.dao.faulty == old(products.dao.faulty)
      ensures (discount, products.dao.rows) ==
                ScraperOutcome(scraper, target, sites, old(products.dao.rows), old(products.dao.faulty))
      ensures forall k: Key :: k.1 != scraper.Value() ==>
                (k in products.dao.rows <==> k in old(products.dao.rows)) &&
                (k in old(products.dao.rows) ==> products.dao.rows[k] == old(products.dao.rows)[k])
      ensures scraper == Carrefour ==> !(discount.Success? && discount.data.Some?)
      ensures discount.Success? && discount.data.Some? ==> discount.data.value != target.codPromo
    {
      ScraperOutcomeSpec(scraper, target, sites, products.dao.rows, products.dao.faulty);
      if scraper == Esselunga {
        discount := esselunga.GetStoreDiscount(target, sites.esselunga);
      } else if scraper == Carrefour {
        discount := carrefour.GetStoreDiscount(sites.carrefour);
      } else {
        discount := tigros.GetStoreDiscount(target, sites.tigros);
      }
    }

    /**
     * `retrieveProducts`: reads the settings, runs the store's scraper on the
     * given store or, when none is given, on the entry's store, and records
     * the outcome as `Settle` says.  `d` is the scraper's answer, when it ran.
     */
    method RetrieveProducts(storeId: int, store: Option<Store>, sites: Sites)
      returns (r: Completion<Result<()>>, ghost d: Option<Result<Option<int>>>)
      requires Valid() && products.dao.Valid()
      modifies settings`settings, products.dao
      ensures Valid() && products.dao.Valid() && products.dao.faulty == old(products.dao.faulty)
      ensures settings.faulty ==>
                r == Returned(Error(UnknownRepositoryError(UnknownMessage))) && d.None? &&
                settings.settings == old(settings.settings) && products.dao.rows == old(products.dao.rows)
      ensures !settings.faulty && storeId !in old(settings.settings).entries ==>
                r == Thrown(IllegalArgument(SettingsNotFoundMessage)) && d.None? &&
                settings.settings == old(settings.settings) && products.dao.rows == old(products.dao.rows)
      ensures !settings.faulty && storeId in old(settings.settings).entries && scrapers.None? ==>
                r == Thrown(Uninitialized) && d.None? &&
                settings.settings == old(settings.settings) && products.dao.rows == old(products.dao.rows)
      ensures !settings.faulty && storeId in old(settings.settings).entries && scrapers.Some? && storeId !in Registered ==>
                r == Returned(ServiceLayerError(UnknownServiceError("Store not found"))) && d.None? &&
                settings.settings == old(settings.settings) && products.dao.rows == old(products.dao.rows)
      ensures d.Some? <==> !settings.faulty && storeId in old(settings.settings).entries && scrapers.Some? && storeId in Registered
      ensures d.Some? ==>
                var s := Settle(old(settings.settings), storeId, store, TypeOf(Registered[storeId]), d.value);
                r == Returned(s.result) && settings.settings == s.settings &&
                (s.clearsProducts && !products.dao.faulty ==> forall k :: k in products.dao.rows ==> k.1 != storeId)
      ensures d.Some? ==>
                var target := if store.Some? then store.value else old(settings.settings).entries[storeId].StoreOrDefault();
                var o := ScraperOutcome(Registered[storeId], target, sites, old(products.dao.rows), old(products.dao.faulty));
                var s := Settle(old(settings.settings), storeId, store, TypeOf(Registered[storeId]), d.value);
                d.value == o.0 &&
                products.dao.rows == if s.clearsProducts && !products.dao.faulty then WithoutStore(o.1, storeId) else o.1
      ensures forall k: Key :: k.1 != storeId ==>
                (k in products.dao.rows <==> k in old(products.dao.rows)) &&
                (k in old(products.dao.rows) ==> products.dao.rows[k] == old(products.dao.rows)[k])
      ensures d.Some? && storeId == Carrefour.Value() ==> !(d.value.Success? && d.value.data.Some?)
      ensures d.Some? && storeId == Tigros.Value() && d.value.Success? && d.value.data.Some? ==>
                d.value.data.value != (if store.Some? then store.value else old(settings.settings).entries[storeId].StoreOrDefault()).codPromo
    {
      d := None;
      var read := settings.GetStoresSettings();
      if !read.Success? {
        return Returned(Error(read.error)), d;
      }
      if storeId !in read.data.entries {
        return Thrown(IllegalArgument(SettingsNotFoundMessage)), d;
      }
      var entry := read.data.entries[storeId];
      if scrapers.None? {
        return Thrown(Uninitialized), d;
      }
      if storeId !in scrapers.value {
        return Returned(ServiceLayerError(UnknownServiceError("Store not found"))), d;
      }
      var scraper := scrapers.value[storeId];
      assert scraper != Unknown && scraper.Value() == storeId;
      var target := if store.Some? then store.value else entry.StoreOrDefault();
      var discount := Discount(scraper, target, sites);
      d := Some(discount);
      if discount.Error? {
        return Returned(Error(discount.error)), d;
      }
      if discount.ServiceLayerError? {
        return Returned(ServiceLayerError(discount.serviceError)), d;
      }
      if store.Some? {
        if TypeOf(scraper) == Selectable {
          return Returned(Error(UnknownRepositoryError("Store wrong type"))), d;
        }
        var enabled := settings.EnableStore(storeId, store.value);
        if enabled.Error? {
          var _ := products.DeleteProductsByStoreType(storeId);
          return Returned(enabled), d;
        }
      }
      if discount.data.Some? {
        var updated := settings.UpdatePromoCode(storeId, discount.data.value);
        return Returned(updated), d;
      }
      return Returned(Success(())), d;
    }

    /**
     * `saveNewStore`: only a registered Selectable scraper can take a new
     * store; once its own save succeeds, the store's products are retrieved
     * at once and that retrieval's result is returned.
     */
    method SaveNewStore(storeId: StoreId, url: string, sites: Sites)
      returns (r: Completion<Result<()>>, ghost d: Option<Result<Option<int>>>)
      requires Valid() && products.dao.Valid()
      modifies settings`settings, products.dao
      ensures Valid() && products.dao.Valid() && products.dao.faulty == old(products.dao.faulty)
      ensures scrapers.None? ==>
                r == Thrown(Uninitialized) && d.None? &&
                settings.settings == old(settings.settings) && products.dao.rows == old(products.dao.rows)
      ensures scrapers.Some? && storeId.Value() !in Registered ==>
                r == Returned(ServiceLayerError(UnknownServiceError("Store not found"))) && d.None? &&
                settings.settings == old(settings.settings) && products.dao.rows == old(products.dao.rows)
      ensures scrapers.Some? && storeId.Value() in Registered && TypeOf(Registered[storeId.Value()]) != Selectable ==>
                r == Returned(ServiceLayerError(UnknownServiceError("Store wrong type"))) && d.None? &&
                settings.settings == old(settings.settings) && products.dao.rows == old(products.dao.rows)
      ensures scrapers.Some? && storeId == Esselunga ==>
                var saved := Apply(old(settings.settings), storeId.Value(), InsertStore(Store(-1, url)));
                if settings.faulty || !saved.Success? then
                  r == Returned(if settings.faulty then Error(UnknownRepositoryError(UnknownMessage)) else Error(saved.error)) &&
                  d.None? && settings.settings == old(settings.settings) && products.dao.rows == old(products.dao.rows)
                else
                  d.Some? &&
                  var s := Settle(saved.data, storeId.Value(), None, Selectable, d.value);
                  r == Returned(s.result) && settings.settings == s.settings &&
                  (d.value, products.dao.rows) ==
                    ScraperOutcome(Esselunga, Store(-1, url), sites, old(products.dao.rows), old(products.dao.faulty))
    {
      d := None;
      if scrapers.None? {
        return Thrown(Uninitialized), d;
      }
      if storeId.Value() !in scrapers.value {
        return Returned(ServiceLayerError(UnknownServiceError("Store not found"))), d;
      }
      var scraper := scrapers.value[storeId.Value()];
      if TypeOf(scraper) != Selectable {
        return Returned(ServiceLayerError(UnknownServiceError("Store wrong type"))), d;
      }
      assert storeId == Esselunga;
      var result := esselunga.SaveNewStore(url);
      if !result.Success? {
        return Returned(result), d;
      }
      ghost var saved := settings.settings;
      assert storeId.Value() in saved.entries;
      ApplyStore(old(settings.settings), storeId.Value(), InsertStore(Store(-1, url)));
      r, d := RetrieveProducts(storeId.Value(), None, sites);
    }

    /**
     * One store's `retrieveProducts` within a full pass, on the entry's own
     * store: it can only crash on missing settings or scrapers, and for a
     * registered store it records the scraper's outcome as `Settle` says.
     */
    method RetrieveForPass(storeId: int, sites: Sites) returns (r: Completion<Result<()>>)
      requires Valid() && products.dao.Valid()
      modifies settings`settings, products.dao
      ensures Valid() && products.dao.Valid() && products.dao.faulty == old(products.dao.faulty)
      ensures r.Thrown? ==> r.crash == IllegalArgument(SettingsNotFoundMessage) || r.crash == Uninitialized
      ensures settings.faulty ==>
                r == Returned(Error(UnknownRepositoryError(UnknownMessage))) &&
                settings.settings == old(settings.settings) && products.dao.rows == old(products.dao.rows)
      ensures !settings.faulty && storeId in old(settings.settings).entries && scrapers.Some? && storeId in Registered ==>
                var o := ScraperOutcome(Registered[storeId], old(settings.settings).entries[storeId].StoreOrDefault(), sites,
                                        old(products.dao.rows), old(products.dao.faulty));
                var s := Settle(old(settings.settings), storeId, None, TypeOf(Registered[storeId]), o.0);
                r == Returned(s.result) && settings.settings == s.settings && products.dao.rows == o.1
      ensures !settings.faulty && scrapers.Some? ==>
                (r, settings.settings, products.dao.rows) ==
                  PassStep(old(settings.settings), old(products.dao.rows), products.dao.faulty, storeId, sites)
    {
      ghost var d;
      r, d := RetrieveProducts(storeId, None, sites);
    }

    /**
     * The loop of `retrieveFromAllStores` over the settings it read: each
     * of `ids` whose entry has a store is retrieved in turn, and the first
     * crash or repository error ends the pass; the outcome is `Pass`.
     */
    method RetrieveBound(snapshot: StoresSettings, ids: seq<int>, sites: Sites) returns (r: Completion<Result<()>>)
      requires Valid() && products.dao.Valid()
      requires !settings.faulty && scrapers.Some?
      modifies settings`settings, products.dao
      ensures Valid() && products.dao.Valid() && products.dao.faulty == old(products.dao.faulty)
      ensures var p := Pass(snapshot, ids, old(settings.settings), old(products.dao.rows), products.dao.faulty, sites);
        r == p.result && settings.settings == p.settings && products.dao.rows == p.rows
    {
      var k := 0;
      while k < |ids|
        invariant 0 <= k <= |ids|
        invariant Valid() && products.dao.Valid()
        invariant products.dao.faulty == old(products.dao.faulty)
        invariant var whole := Pass(snapshot, ids, old(settings.settings), old(products.dao.rows), products.dao.faulty, sites);
          var rest := Pass(snapshot, ids[k..], settings.settings, products.dao.rows, products.dao.faulty, sites);
          whole.result == rest.result && whole.settings == rest.settings && whole.rows == rest.rows
      {
        var id := ids[k];
        assert ids[k..][0] == id && ids[k..][1..] == ids[k + 1..];
        if id !in snapshot.entries {
          return Thrown(IllegalArgument(SettingsNotFoundMessage));
        }
        if snapshot.entries[id].store.Some? {
          var result := RetrieveForPass(id, sites);
          if result.Thrown? {
            return result;
          }
          if result.result.Error? {
            return result;
          }
        }
        k := k + 1;
      }
      return Returned(Success(()));
    }

    /**
     * `retrieveFromAllStores`: while another pass runs, `Success` and nothing
     * else.  Otherwise the flag goes Running, the settings are read, and
     * every registered store whose entry has a store is retrieved in
     * registration order, as `Pass` describes; the flag is Idle again on
     * every returned result.  A failed read returns its error; a `scrapers`
     * map not yet set, or a throw from the pass, leaves the flag Running.
     */
    method RetrieveFromAllStores(sites: Sites) returns (r: Completion<Result<()>>)
      requires Valid() && products.dao.Valid()
      modifies this`state, settings`settings, products.dao
      ensures Valid() && products.dao.Valid() && scrapers == old(scrapers)
      ensures old(state) == Running ==>
                r == Returned(Success(())) && state == Running &&
                settings.settings == old(settings.settings) && products.dao.rows == old(products.dao.rows)
      ensures old(state) == Idle ==> (r.Returned? <==> state == Idle)
      ensures old(state) == Idle && settings.faulty ==>
                r == Returned(Error(UnknownRepositoryError(UnknownMessage))) &&
                settings.settings == old(settings.settings) && products.dao.rows == old(products.dao.rows)
      ensures old(state) == Idle && !settings.faulty && scrapers.None? ==>
                r == Thrown(Uninitialized) &&
                settings.settings == old(settings.settings) && products.dao.rows == old(products.dao.rows)
      ensures old(state) == Idle && !settings.faulty && scrapers.Some? ==>
                var p := Pass(old(settings.settings), RegistrationIds, old(settings.settings), old(products.dao.rows),
                              products.dao.faulty, sites);
                r == p.result && settings.settings == p.settings && products.dao.rows == p.rows
    {
      if state == Running {
        return Returned(Success(()));
      }
      state := Running;
      var read := settings.GetStoresSettings();
      if !read.Success? {
        state := Idle;
        return Returned(Error(read.error));
      }
      var snapshot := read.data;
      if scrapers.None? {
        return Thrown(Uninitialized);
      }
      r := RetrieveBound(snapshot, RegistrationIds, sites);
      if r.Returned? {
        state := Idle;
      }
    }

    /**
     * `retrieveSingleProducts`, from the moment the flag is found Idle: the
     * flag goes Running for one `retrieveProducts`, whose result is returned,
     * and back to Idle on every returned result.
     */
    method RetrieveSingleProducts(storeId: int, store: Option<Store>, sites: Sites)
      returns (r: Completion<Result<()>>, ghost d: Option<Result<Option<int>>>)
      requires Valid() && products.dao.Valid()
      requires state == Idle
      modifies this`state, settings`settings, products.dao
      ensures Valid() && products.dao.Valid() && products.dao.faulty == old(products.dao.faulty)
      ensures r.Returned? <==> state == Idle
      ensures settings.faulty ==>
                r == Returned(Error(UnknownRepositoryError(UnknownMessage))) && d.None? &&
                settings.settings == old(settings.settings) && products.dao.rows == old(products.dao.rows)
      ensures !settings.faulty && storeId !in old(settings.settings).entries ==>
                r == Thrown(IllegalArgument(SettingsNotFoundMessage)) && state == Running &&
                settings.settings == old(settings.settings) && products.dao.rows == old(products.dao.rows)
      ensures !settings.faulty && storeId in old(settings.settings).entries && scrapers.None? ==>
                r == Thrown(Uninitialized) && state == Running &&
                settings.settings == old(settings.settings) && products.dao.rows == old(products.dao.rows)
      ensures !settings.faulty && storeId in old(settings.settings).entries && scrapers.Some? && storeId !in Registered ==>
                r == Returned(ServiceLayerError(UnknownServiceError("Store not found"))) && state == Idle &&
                settings.settings == old(settings.settings) && products.dao.rows == old(products.dao.rows)
      ensures d.Some? <==> !settings.faulty && storeId in old(settings.settings).entries && scrapers.Some? && storeId in Registered
      ensures d.Some? ==>
                var s := Settle(old(settings.settings), storeId, store, TypeOf(Registered[storeId]), d.value);
                r == Returned(s.result) && settings.settings == s.settings
      ensures d.Some? ==>
                var target := if store.Some? then store.value else old(settings.settings).entries[storeId].StoreOrDefault();
                var o := ScraperOutcome(Registered[storeId], target, sites, old(products.dao.rows), old(products.dao.faulty));
                var s := Settle(old(settings.settings), storeId, store, TypeOf(Registered[storeId]), d.value);
                d.value == o.0 &&
                products.dao.rows == if s.clearsProducts && !products.dao.faulty then WithoutStore(o.1, storeId) else o.1
      ensures forall k: Key :: k.1 != storeId ==>
                (k in products.dao.rows <==> k in old(products.dao.rows)) &&
                (k in old(products.dao.rows) ==> products.dao.rows[k] == old(products.dao.rows)[k])
    {
      state := Running;
      r, d := RetrieveProducts(storeId, store, sites);
      if r.Thrown? {
        return;
      }
      if !r.result.Success? {
        state := Idle;
        return;
      }
      state := Idle;
      return Returned(Success(())), d;
    }
  }
}
