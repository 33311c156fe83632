/**
 * viewmodel/StoresViewModel.kt: the stores screen.  It shows the stored
 * per-store settings and turns the user's enable / disable / add / remove
 * requests into calls on the settings repository, the product repository
 * and the retrieval handler, reporting each outcome through the inherited
 * operation state.
 */
module StoresViewModels {
  import opened Results
  import opened Model
  import opened ProductStorage
  import opened ProductsRepositories
  import opened StoresSettingsRepositories
  import opened StoresService
  import BV = BaseViewModels
  import Notifications

  const StoreEnabledMessage := "Negozio Abilitato"
  const StoreDisabledMessage := "Negozio Disabilitato"
  const StoreAddedMessage := "Negozio Aggiunto"
  const StoreRemovedMessage := "Negozio Rimosso"

  /** The store a user enables: no url yet, and no promo code seen. */
  const NewStore := Store(-1, "")

  /** `StoresUiState` */
  datatype StoresUiState = Loading | Display(storeSettings: map<int, StoreSettings>) | Error(message: string)

  /**
   * What an unbind-then-clear operation (`disableStore`, `removeStore`)
   * reports: the settings error if unbinding failed, otherwise the deletion's
   * outcome.  Only two successes report success.
   */
  function ReportUnbind(unbound: Result<()>, deleted: Option<Result<()>>, successMessage: string): (s: BV.OperationUiState)
    requires deleted.Some? <==> unbound.Success?
    ensures s.Success? <==> unbound.Success? && deleted.value.Success?
    ensures s.Success? ==> s == BV.OperationUiState.Success(successMessage, Notifications.INFO)
    ensures unbound.Error? ==> s == BV.OperationUiState.Error(unbound.error.Message())
    ensures unbound.Success? && deleted.value.Error? ==> s == BV.OperationUiState.Error(deleted.value.error.Message())
  {
    if unbound.Success? then BV.Report(deleted.value, successMessage) else BV.Report(unbound, successMessage)
  }

  class StoresViewModel {
    const base: BV.BaseViewModel
    const settings: StoresSettingsRepository
    const products: ProductsRepository
    const handler: StoresServiceHandler
    var storesUiState: StoresUiState
    var isInitialized: bool

    /** The view-model and the handler share the two repositories. */
    ghost predicate Valid()
      reads this, handler, products, products.dao
    {
      handler.settings == settings && handler.products == products &&
      handler.Valid() && products.dao.Valid()
    }

    constructor (settings: StoresSettingsRepository, products: ProductsRepository, handler: StoresServiceHandler)
      requires handler.settings == settings && handler.products == products
      ensures this.settings == settings && this.products == products && this.handler == handler
      ensures fresh(base) && base.operationUiState == BV.OperationUiState.Idle
      ensures storesUiState == Loading && !isInitialized
    {
      this.settings := settings;
      this.products := products;
      this.handler := handler;
      base := new BV.BaseViewModel();
      storesUiState := Loading;
      isInitialized := false;
    }

    /**
     * `initialize`: only the first call does anything.  It then shows the
     * stored settings, or the error when they cannot be read or were never
     * seeded.  (The screen follows later updates of the settings too; the
     * model takes the value current at the call.)
     */
    method Initialize()
      modifies this`isInitialized, this`storesUiState
      ensures isInitialized
      ensures old(isInitialized) ==> storesUiState == old(storesUiState)
      ensures !old(isInitialized) && (settings.faulty || settings.settings == DefaultStoresSettings) ==>
                storesUiState == StoresUiState.Error(UnknownMessage)
      ensures !old(isInitialized) && !settings.faulty && settings.settings != DefaultStoresSettings ==>
                storesUiState == Display(settings.settings.entries)
    {
      if isInitialized {
        return;
      }
      isInitialized := true;
      var read := settings.GetStoresSettingsFlow();
      if !read.Success? {
        storesUiState := StoresUiState.Error(read.error.Message());
        return;
      }
      storesUiState := Display(read.data.entries);
    }

    /**
     * `enableStore`: a single-store retrieval with a fresh store whose promo
     * code is -1; the retrieval's result is reported as `StoreEnabled` or as
     * the error of either kind.  A retrieval that throws leaves the state
     * Loading.  `retrieved` is the retrieval's outcome and `d` what the
     * scraper reported, as `retrieveSingleProducts` states them.
     */
    method EnableStore(storeId: int, sites: Sites)
      returns (c: Completion<()>, ghost retrieved: Completion<Result<()>>, ghost d: Option<Result<Option<int>>>)
      requires Valid() && handler.state == StoresService.Idle
      modifies base, handler`state, settings`settings, products.dao
      ensures Valid()
      ensures old(base.operationUiState) == BV.OperationUiState.Loading ==>
                c == Thrown(IllegalArgument(BV.InProgressMessage)) && base.operationUiState == BV.OperationUiState.Loading &&
                handler.state == StoresService.Idle &&
                settings.settings == old(settings.settings) && products.dao.rows == old(products.dao.rows)
      ensures old(base.operationUiState) != BV.OperationUiState.Loading ==>
                (retrieved.Thrown? ==> c == Thrown(retrieved.crash) && base.operationUiState == BV.OperationUiState.Loading) &&
                (retrieved.Returned? ==> c == Returned(()) && base.operationUiState == BV.Report(retrieved.result, StoreEnabledMessage))
      ensures old(base.operationUiState) != BV.OperationUiState.Loading && d.Some? ==>
                storeId in Registered &&
                var s := Settle(old(settings.settings), storeId, Some(NewStore), TypeOf(Registered[storeId]), d.value);
                retrieved == Returned(s.result) && settings.settings == s.settings
      ensures old(base.operationUiState) != BV.OperationUiState.Loading && d.Some? ==>
                storeId in Registered &&
                var o := ScraperOutcome(Registered[storeId], NewStore, sites, old(products.dao.rows), old(products.dao.faulty));
                var s := Settle(old(settings.settings), storeId, Some(NewStore), TypeOf(Registered[storeId]), d.value);
                d.value == o.0 &&
                products.dao.rows == if s.clearsProducts && !products.dao.faulty then WithoutStore(o.1, storeId) else o.1
      ensures old(base.operationUiState) != BV.OperationUiState.Loading && d.None? ==>
                settings.settings == old(settings.settings) && products.dao.rows == old(products.dao.rows)
      ensures forall k: Key :: k.1 != storeId ==>
                (k in products.dao.rows <==> k in old(products.dao.rows)) &&
                (k in old(products.dao.rows) ==> products.dao.rows[k] == old(products.dao.rows)[k])
    {
      retrieved, d := Returned(Success(())), None;
      c := base.StartOperation();
      if c.Thrown? {
        return;
      }
      var result;
      result, d := handler.RetrieveSingleProducts(storeId, Some(NewStore), sites);
      retrieved := result;
      if result.Thrown? {
        return Thrown(result.crash), retrieved, d;
      }
      base.Finish(BV.Report(result.result, StoreEnabledMessage));
    }

    /**
     * The shared body of `disableStore` and `removeStore`: the settings
     * operation first, and the store's products deleted only once it has
     * succeeded.
     */
    method Unbind(storeId: int, op: SettingsOp, successMessage: string)
      returns (c: Completion<()>, ghost unbound: Result<()>, ghost deleted: Option<Result<()>>)
      requires Valid() && (op == SettingsOp.DisableStore || op == SettingsOp.RemoveStore)
      modifies base, settings`settings, products.dao
      ensures Valid()
      ensures old(base.operationUiState) == BV.OperationUiState.Loading ==>
                c == Thrown(IllegalArgument(BV.InProgressMessage)) && base.operationUiState == BV.OperationUiState.Loading &&
                settings.settings == old(settings.settings) && products.dao.rows == old(products.dao.rows)
      ensures old(base.operationUiState) != BV.OperationUiState.Loading ==>
                c == Returned(()) &&
                Committed(old(settings.settings), storeId, op, settings.faulty, unbound, settings.settings) &&
                (deleted.Some? <==> unbound.Success?) &&
                (deleted.Some? && deleted.value.Success? ==> products.dao.rows == WithoutStore(old(products.dao.rows), storeId)) &&
                (!(deleted.Some? && deleted.value.Success?) ==> products.dao.rows == old(products.dao.rows)) &&
                base.operationUiState == ReportUnbind(unbound, deleted, successMessage)
    {
      unbound, deleted := Success(()), None;
      c := base.StartOperation();
      if c.Thrown? {
        return;
      }
      var result: Result<()>;
      var deletion: Option<Result<()>> := None;
      if op == SettingsOp.DisableStore {
        result := settings.DisableStore(storeId);
      } else {
        result := settings.RemoveStore(storeId);
      }
      if result.Success? {
        var r := products.DeleteProductsByStoreType(storeId);
        deletion := Some(r);
      }
      unbound, deleted := result, deletion;
      base.Finish(ReportUnbind(result, deletion, successMessage));
    }

    /** `disableStore` */
    method DisableStore(storeId: int) returns (c: Completion<()>, ghost unbound: Result<()>, ghost deleted: Option<Result<()>>)
      requires Valid()
      modifies base, settings`settings, products.dao
      ensures Valid()
      ensures old(base.operationUiState) == BV.OperationUiState.Loading ==>
                c == Thrown(IllegalArgument(BV.InProgressMessage)) && base.operationUiState == BV.OperationUiState.Loading &&
                settings.settings == old(settings.settings) && products.dao.rows == old(products.dao.rows)
      ensures old(base.operationUiState) != BV.OperationUiState.Loading ==>
                c == Returned(()) &&
                Committed(old(settings.settings), storeId, SettingsOp.DisableStore, settings.faulty, unbound, settings.settings) &&
                (deleted.Some? <==> unbound.Success?) &&
                (deleted.Some? && deleted.value.Success? ==> products.dao.rows == WithoutStore(old(products.dao.rows), storeId)) &&
                (!(deleted.Some? && deleted.value.Success?) ==> products.dao.rows == old(products.dao.rows)) &&
                base.operationUiState == ReportUnbind(unbound, deleted, StoreDisabledMessage)
    {
      c, unbound, deleted := Unbind(storeId, SettingsOp.DisableStore, StoreDisabledMessage);
    }

    /** `removeStore` */
    method RemoveStore(storeId: int) returns (c: Completion<()>, ghost unbound: Result<()>, ghost deleted: Option<Result<()>>)
      requires Valid()
      modifies base, settings`settings, products.dao
      ensures Valid()
      ensures old(base.operationUiState) == BV.OperationUiState.Loading ==>
                c == Thrown(IllegalArgument(BV.InProgressMessage)) && base.operationUiState == BV.OperationUiState.Loading &&
                settings.settings == old(settings.settings) && products.dao.rows == old(products.dao.rows)
      ensures old(base.operationUiState) != BV.OperationUiState.Loading ==>
                c == Returned(()) &&
                Committed(old(settings.settings), storeId, SettingsOp.RemoveStore, settings.faulty, unbound, settings.settings) &&
                (deleted.Some? <==> unbound.Success?) &&
                (deleted.Some? && deleted.value.Success? ==> products.dao.rows == WithoutStore(old(products.dao.rows), storeId)) &&
                (!(deleted.Some? && deleted.value.Success?) ==> products.dao.rows == old(products.dao.rows)) &&
                base.operationUiState == ReportUnbind(unbound, deleted, StoreRemovedMessage)
    {
      c, unbound, deleted := Unbind(storeId, SettingsOp.RemoveStore, StoreRemovedMessage);
    }

    /**
     * `insertStore`: delegates to `saveNewStore` and reports `StoreAdded` or
     * the error of either kind; `saved` is what `saveNewStore` returned.
     */
    method InsertStore(storeId: StoreId, url: string, sites: Sites)
      returns (c: Completion<()>, ghost saved: Completion<Result<()>>)
      requires Valid()
      modifies base, settings`settings, products.dao
      ensures Valid()
      ensures old(base.operationUiState) == BV.OperationUiState.Loading ==>
                c == Thrown(IllegalArgument(BV.InProgressMessage)) && base.operationUiState == BV.OperationUiState.Loading &&
                settings.settings == old(settings.settings) && products.dao.rows == old(products.dao.rows)
      ensures old(base.operationUiState) != BV.OperationUiState.Loading ==>
                (saved.Thrown? ==> c == Thrown(saved.crash) && base.operationUiState == BV.OperationUiState.Loading) &&
                (saved.Returned? ==> c == Returned(()) && base.operationUiState == BV.Report(saved.result, StoreAddedMessage))
      ensures old(base.operationUiState) != BV.OperationUiState.Loading && handler.scrapers.None? ==>
                saved == Thrown(Uninitialized)
      ensures old(base.operationUiState) != BV.OperationUiState.Loading && handler.scrapers.Some? && storeId != Esselunga ==>
                saved.Returned? && saved.result.ServiceLayerError? &&
                settings.settings == old(settings.settings) && products.dao.rows == old(products.dao.rows)
      ensures old(base.operationUiState) != BV.OperationUiState.Loading && handler.scrapers.Some? && storeId == Esselunga ==>
                var saving := Apply(old(settings.settings), Esselunga.Value(), SettingsOp.InsertStore(Store(-1, url)));
                if settings.faulty || !saving.Success? then
                  saved == Returned(if settings.faulty then Result.Error(UnknownRepositoryError(UnknownMessage)) else Result.Error(saving.error)) &&
                  settings.settings == old(settings.settings) && products.dao.rows == old(products.dao.rows)
                else
                  var o := ScraperOutcome(Esselunga, Store(-1, url), sites, old(products.dao.rows), old(products.dao.faulty));
                  var s := Settle(saving.data, Esselunga.Value(), None, Selectable, o.0);
                  saved == Returned(s.result) && settings.settings == s.settings && products.dao.rows == o.1
    {
      saved := Returned(Success(()));
      c := base.StartOperation();
      if c.Thrown? {
        return;
      }
      var result;
      ghost var d;
      result, d := handler.SaveNewStore(storeId, url, sites);
      saved := result;
      if result.Thrown? {
        return Thrown(result.crash), saved;
      }
      base.Finish(BV.Report(result.result, StoreAddedMessage));
    }
  }
}
