/**
 * repository/settings/StoresSettingsRepository.kt: the per-store settings
 * kept in a DataStore.  Each mutation first refuses a store that was never
 * seeded (`checkInitialization`), then rebuilds the one map entry of the
 * store after checking its type (`checkCorrectType`).  A DataStore that
 * cannot be read or written (`faulty`) turns every call into
 * `UnknownError("An unknown error occurred")`.
 */
module StoresSettingsRepositories {
  import opened Results
  import opened Model

  const UnknownMessage: string := "An unknown error occurred"

  /** The five entry rewrites of the repository. */
  datatype SettingsOp =
    | EnableStore(store: Store)       // Toggle entries only; binds the store
    | DisableStore                    // Toggle entries only; unbinds the store
    | InsertStore(store: Store)       // Selectable entries only; binds the store
    | RemoveStore                     // Selectable entries only; unbinds the store
    | UpdatePromoCode(promoCode: int) // any type; needs a bound store
  {
    /** The type `checkCorrectType` demands, if any. */
    function ExpectedType(): Option<StoreType> {
      match this
      case EnableStore(_) => Some(Toggle)
      case DisableStore => Some(Toggle)
      case InsertStore(_) => Some(Selectable)
      case RemoveStore => Some(Selectable)
      case UpdatePromoCode(_) => None
    }
  }

  /** `checkCorrectType`: the error it throws, if any. */
  function CheckCorrectType(entry: Option<StoreSettings>, expected: StoreType): (e: Option<RepositoryError>)
    ensures e == None <==> entry.Some? && entry.value.storeType == expected
    ensures entry.None? ==> e == Some(StoreSettingsNotFound)
  {
    if entry.None? then Some(StoreSettingsNotFound)
    else if entry.value.storeType != expected then Some(IncorrectStoreType)
    else None
  }

  function Lookup(s: StoresSettings, storeId: int): Option<StoreSettings> {
    if storeId in s.entries then Some(s.entries[storeId]) else None
  }

  /** The entry after a successful rewrite. */
  function Rewritten(entry: StoreSettings, op: SettingsOp): StoreSettings
    requires op.UpdatePromoCode? ==> entry.store.Some?
  {
    match op
    case EnableStore(store) => entry.(store := Some(store))
    case InsertStore(store) => entry.(store := Some(store))
    case DisableStore => entry.(store := None)
    case RemoveStore => entry.(store := None)
    case UpdatePromoCode(code) => entry.(store := Some(entry.store.value.(codPromo := code)))
  }

  /** The guard of `op` accepts this entry. */
  predicate Accepts(op: SettingsOp, entry: StoreSettings) {
    if op.UpdatePromoCode? then entry.store.Some? else entry.storeType == op.ExpectedType().value
  }

  /**
   * One mutation, from the stored settings to the new settings or to the
   * error the repository reports.  On success only the entry of `storeId`
   * changes, keeping its type; the version and every other entry stay.
   */
  function Apply(s: StoresSettings, storeId: int, op: SettingsOp): (r: Result<StoresSettings>)
    ensures !r.ServiceLayerError?
    ensures r.Success? <==> s != DefaultStoresSettings && storeId in s.entries && Accepts(op, s.entries[storeId])
    ensures s == DefaultStoresSettings ==> r == Error(StoreSettingsNotInitialized)
    ensures s != DefaultStoresSettings && storeId !in s.entries ==> r == Error(StoreSettingsNotFound)
    ensures (s != DefaultStoresSettings && storeId in s.entries && !op.UpdatePromoCode? &&
             s.entries[storeId].storeType != op.ExpectedType().value) ==> r == Error(IncorrectStoreType)
    ensures (s != DefaultStoresSettings && storeId in s.entries && op.UpdatePromoCode? &&
             s.entries[storeId].store.None?) ==> r == Error(StoreSettingsNotFound)
    ensures r.Success? ==> r.data.version == s.version && r.data.entries.Keys == s.entries.Keys
    ensures r.Success? ==> forall id :: id in s.entries && id != storeId ==> r.data.entries[id] == s.entries[id]
    ensures r.Success? ==> r.data.entries[storeId].storeType == s.entries[storeId].storeType
  {
    if s == DefaultStoresSettings then Error(StoreSettingsNotInitialized)
    else
      var entry := Lookup(s, storeId);
      var check :=
        if op.UpdatePromoCode? then (if entry.None? || entry.value.store.None? then Some(StoreSettingsNotFound) else None)
        else CheckCorrectType(entry, op.ExpectedType().value);
      if check.Some? then Error(check.value)
      else Success(s.(entries := s.entries[storeId := Rewritten(entry.value, op)]))
  }

  /** What each successful rewrite leaves in the target entry's store. */
  lemma ApplyStore(s: StoresSettings, storeId: int, op: SettingsOp)
    requires Apply(s, storeId, op).Success?
    ensures var e := Apply(s, storeId, op).data.entries[storeId];
      match op
      case EnableStore(store) => e.store == Some(store)
      case InsertStore(store) => e.store == Some(store)
      case DisableStore => e.store.None?
      case RemoveStore => e.store.None?
      case UpdatePromoCode(code) =>
        e.store.Some? && e.store.value.codPromo == code && e.store.value.url == s.entries[storeId].store.value.url
  {
  }

  /** Disabling, or removing, a second time changes nothing more. */
  lemma UnbindIdempotent(s: StoresSettings, storeId: int, op: SettingsOp)
    requires op == DisableStore || op == RemoveStore
    requires Apply(s, storeId, op).Success?
    ensures Apply(Apply(s, storeId, op).data, storeId, op) == Apply(s, storeId, op)
  {
    var t := Apply(s, storeId, op).data;
    assert storeId in t.entries;
    assert t.entries[storeId].(store := None) == t.entries[storeId];
    assert t.entries[storeId := t.entries[storeId]] == t.entries;
  }

  /**
   * The stored settings after one call and the call's result: the fault
   * or the mutation's error leaves the settings as they were.
   */
  predicate Committed(before: StoresSettings, storeId: int, op: SettingsOp, faulty: bool,
                      r: Result<()>, after: StoresSettings) {
    if faulty then r == Error(UnknownRepositoryError(UnknownMessage)) && after == before
    else match Apply(before, storeId, op)
      case Success(s) => r == Success(()) && after == s
      case Error(e) => r == Error(e) && after == before
      case ServiceLayerError(_) => false
  }

  class StoresSettingsRepository {
    /** The DataStore contents. */
    var settings: StoresSettings
    /** The DataStore cannot be read or written. */
    var faulty: bool

    /** A fresh DataStore holds the default instance. */
    constructor ()
      ensures settings == DefaultStoresSettings && !faulty
    {
      settings := DefaultStoresSettings;
      faulty := false;
    }

    /** `getStoresSettingsFlow`, as its current value: requires seeded settings. */
    method GetStoresSettingsFlow() returns (r: Result<StoresSettings>)
      ensures r.Success? <==> !faulty && settings != DefaultStoresSettings
      ensures r.Success? ==> r.data == settings
      ensures !r.Success? ==> r == Error(UnknownRepositoryError(UnknownMessage))
    {
      if faulty || settings == DefaultStoresSettings {
        // `checkInitialization` throws here, but this method only catches `Exception`
        return Error(UnknownRepositoryError(UnknownMessage));
      }
      return Success(settings);
    }

    /** `getStoresSettings`: reads without an initialisation check. */
    method GetStoresSettings() returns (r: Result<StoresSettings>)
      ensures r.Success? <==> !faulty
      ensures r.Success? ==> r.data == settings
      ensures !r.Success? ==> r == Error(UnknownRepositoryError(UnknownMessage))
    {
      if faulty {
        return Error(UnknownRepositoryError(UnknownMessage));
      }
      return Success(settings);
    }

    /** The shared body of the five mutations. */
    method Mutate(storeId: int, op: SettingsOp) returns (r: Result<()>)
      modifies this`settings
      ensures Committed(old(settings), storeId, op, faulty, r, settings)
    {
      if faulty {
        return Error(UnknownRepositoryError(UnknownMessage));
      }
      var next := Apply(settings, storeId, op);
      match next
      case Success(s) =>
        settings := s;
        r := Success(());
      case Error(e) =>
        r := Error(e);
    }

    /** `enableStore` */
    method EnableStore(storeId: int, store: Store) returns (r: Result<()>)
      modifies this`settings
      ensures Committed(old(settings), storeId, SettingsOp.EnableStore(store), faulty, r, settings)
    {
      r := Mutate(storeId, SettingsOp.EnableStore(store));
    }

    /** `disableStore` */
    method DisableStore(storeId: int) returns (r: Result<()>)
      modifies this`settings
      ensures Committed(old(settings), storeId, SettingsOp.DisableStore, faulty, r, settings)
    {
      r := Mutate(storeId, SettingsOp.DisableStore);
    }

    /** `insertStore` */
    method InsertStore(storeId: int, store: Store) returns (r: Result<()>)
      modifies this`settings
      ensures Committed(old(settings), storeId, SettingsOp.InsertStore(store), faulty, r, settings)
    {
      r := Mutate(storeId, SettingsOp.InsertStore(store));
    }

    /** `removeStore` */
    method RemoveStore(storeId: int) returns (r: Result<()>)
      modifies this`settings
      ensures Committed(old(settings), storeId, SettingsOp.RemoveStore, faulty, r, settings)
    {
      r := Mutate(storeId, SettingsOp.RemoveStore);
    }

    /** `updatePromoCode` */
    method UpdatePromoCode(storeId: int, promoCode: int) returns (r: Result<()>)
      modifies this`settings
      ensures Committed(old(settings), storeId, SettingsOp.UpdatePromoCode(promoCode), faulty, r, settings)
    {
      r := Mutate(storeId, SettingsOp.UpdatePromoCode(promoCode));
    }

    /** `initializeStoresSettings`: overwrites everything, with no check. */
    method InitializeStoresSettings(s: StoresSettings) returns (r: Result<()>)
      modifies this`settings
      ensures faulty ==> r == Error(UnknownRepositoryError(UnknownMessage)) && settings == old(settings)
      ensures !faulty ==> r == Success(()) && settings == s
    {
      if faulty {
        return Error(UnknownRepositoryError(UnknownMessage));
      }
      settings := s;
      return Success(());
    }
  }
}
