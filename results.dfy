/**
 * The app's `Result` type and the two error families it carries
 * (util/Result.kt, repository/RepositoryError.kt, repository/StoresSettingsErrors.kt,
 * service/stores/ServiceError.kt and the per-store error objects).
 */
module Results {

  datatype Option<+T> = None | Some(value: T)

  /** Errors raised by the storage layer. */
  datatype RepositoryError =
    | UnknownRepositoryError(message: string)
    | StoreSettingsNotFound
    | StoreSettingsNotInitialized
    | IncorrectStoreType
  {
    function Message(): string {
      match this
      case UnknownRepositoryError(m) => m
      case StoreSettingsNotFound => "Store Settings not found"
      case StoreSettingsNotInitialized => "Store Settings not initialized"
      case IncorrectStoreType => "Incorrect store type"
    }
  }

  /** Errors raised by the scraping services. */
  datatype ServiceError =
    | UnknownServiceError(message: string)
    | IncorrectGetResponse   // BaseErrors.IncorrectGetResponse
    | FlyerNotFound          // TigrosErrors.FlyerNotFound
  {
    function Message(): string {
      match this
      case UnknownServiceError(m) => m
      case IncorrectGetResponse => "The response from the GET request was not 200"
      case FlyerNotFound => "Nessuna offerta trovata"
    }
  }

  /** The three exclusive outcomes of an operation. */
  datatype Result<+T> =
    | Success(data: T)
    | Error(error: RepositoryError)
    | ServiceLayerError(serviceError: ServiceError)

  /** Which combinator action ran, with the value it was given. */
  datatype Fired<+T> =
    | RanOnSuccess(data: T)
    | RanOnError(error: RepositoryError)
    | RanOnServiceError(serviceError: ServiceError)

  /**
   * `onSuccess`: runs its action with `data` exactly when the receiver is a
   * `Success`, and hands back the receiver unchanged.  The actions that ran are
   * appended to `ran`.
   */
  function OnSuccess<T>(r: Result<T>, ran: seq<Fired<T>>): (out: (Result<T>, seq<Fired<T>>))
    ensures out.0 == r
    ensures r.Success? ==> out.1 == ran + [RanOnSuccess(r.data)]
    ensures !r.Success? ==> out.1 == ran
  {
    if r.Success? then (r, ran + [RanOnSuccess(r.data)]) else (r, ran)
  }

  /** `onError`: runs exactly when the receiver is an `Error`. */
  function OnError<T>(r: Result<T>, ran: seq<Fired<T>>): (out: (Result<T>, seq<Fired<T>>))
    ensures out.0 == r
    ensures r.Error? ==> out.1 == ran + [RanOnError(r.error)]
    ensures !r.Error? ==> out.1 == ran
  {
    if r.Error? then (r, ran + [RanOnError(r.error)]) else (r, ran)
  }

  /** `onServiceError`: runs exactly when the receiver is a `ServiceLayerError`. */
  function OnServiceError<T>(r: Result<T>, ran: seq<Fired<T>>): (out: (Result<T>, seq<Fired<T>>))
    ensures out.0 == r
    ensures r.ServiceLayerError? ==> out.1 == ran + [RanOnServiceError(r.serviceError)]
    ensures !r.ServiceLayerError? ==> out.1 == ran
  {
    if r.ServiceLayerError? then (r, ran + [RanOnServiceError(r.serviceError)]) else (r, ran)
  }

  /** `r.onSuccess { … }.onError { … }.onServiceError { … }`, as the view-models write it. */
  function Chain<T>(r: Result<T>): (Result<T>, seq<Fired<T>>) {
    var a := OnSuccess(r, []);
    var b := OnError(a.0, a.1);
    OnServiceError(b.0, b.1)
  }

  /**
   * The variants are exclusive, so a full chain runs exactly one action, the
   * one matching the receiver, and the chain still yields the receiver.
   */
  lemma ChainRunsExactlyOne<T>(r: Result<T>)
    ensures Chain(r).0 == r
    ensures |Chain(r).1| == 1
    ensures Chain(r).1[0] == match r
                             case Success(d) => RanOnSuccess(d)
                             case Error(e) => RanOnError(e)
                             case ServiceLayerError(e) => RanOnServiceError(e)
  {
  }

  /** How an operation that can also throw ended. */
  datatype Crash =
    | IllegalArgument(message: string)  // Kotlin `require` / IllegalArgumentException
    | IllegalState(message: string)     // IllegalStateException
    | Uninitialized                     // a `lateinit` property read before it was set
    | ClassCast                         // a failed `as` cast
    | NoSuchElement                     // `first { … }` with no match
    | JsonFailure                       // an org.json accessor on a missing key or wrong type
    | ConstraintViolation               // SQLite refused a row (primary-key conflict)
    | StorageFailure                    // the database or the DataStore file could not be used
    | NumberFormat                      // `toInt` of a text that is not a number

  datatype Completion<+T> = Returned(result: T) | Thrown(crash: Crash)
}
