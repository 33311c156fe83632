/**
 * The operation state every view-model inherits (viewmodel/BaseViewModel.kt):
 * at most one user operation is in progress at a time.
 */
module BaseViewModels {
  import opened Results
  import opened Notifications

  /** `OperationUiState`; a `Success` reports with INFO unless told otherwise. */
  datatype OperationUiState =
    | Idle
    | Loading
    | Success(message: string, notificationType: NotificationType := INFO)
    | Error(message: string)

  const InProgressMessage := "Another operation is in progress"

  /**
   * `startOperation` on a given state: from any state but `Loading` it moves
   * to `Loading`; from `Loading` its `require` throws.
   */
  function Start(state: OperationUiState): (c: Completion<OperationUiState>)
    ensures c.Returned? <==> !state.Loading?
    ensures c.Returned? ==> c.result == Loading
    ensures c.Thrown? ==> c.crash == IllegalArgument(InProgressMessage)
  {
    if state == Loading then Thrown(IllegalArgument(InProgressMessage)) else Returned(Loading)
  }

  /**
   * Two `startOperation` calls with no report or reset between them: the
   * second always throws.
   */
  lemma StartTwiceThrows(state: OperationUiState)
    ensures Start(state).Returned? ==> Start(Start(state).result) == Thrown(IllegalArgument(InProgressMessage))
  {
  }

  /** The state a finished repository or service call reports. */
  function Report(r: Result<()>, successMessage: string): (s: OperationUiState)
    ensures r.Success? <==> s.Success?
    ensures s.Success? ==> s == OperationUiState.Success(successMessage, INFO)
    ensures r.Error? ==> s == OperationUiState.Error(r.error.Message())
    ensures r.ServiceLayerError? ==> s == OperationUiState.Error(r.serviceError.Message())
  {
    match r
    case Success(_) => OperationUiState.Success(successMessage)
    case Error(e) => OperationUiState.Error(e.Message())
    case ServiceLayerError(e) => OperationUiState.Error(e.Message())
  }

  /**
   * The state a finished call reports when only `onSuccess` and `onError`
   * are chained: a `ServiceLayerError` runs neither, so the state stays
   * Loading.
   */
  function ReportRepository<T>(r: Result<T>, successMessage: string, notificationType: NotificationType): (s: OperationUiState)
    ensures r.Success? <==> s.Success?
    ensures s.Success? ==> s == OperationUiState.Success(successMessage, notificationType)
    ensures r.Error? ==> s == OperationUiState.Error(r.error.Message())
    ensures r.ServiceLayerError? <==> s == Loading
  {
    match r
    case Success(_) => OperationUiState.Success(successMessage, notificationType)
    case Error(e) => OperationUiState.Error(e.Message())
    case ServiceLayerError(_) => Loading
  }

  /** The inherited part of a view-model: its operation state. */
  class BaseViewModel {
    var operationUiState: OperationUiState

    constructor ()
      ensures operationUiState == Idle
    {
      operationUiState := Idle;
    }

    /** `startOperation` */
    method StartOperation() returns (c: Completion<()>)
      modifies this
      ensures old(operationUiState) == Loading ==>
                c == Thrown(IllegalArgument(InProgressMessage)) && operationUiState == Loading
      ensures old(operationUiState) != Loading ==> c == Returned(()) && operationUiState == Loading
    {
      if operationUiState == Loading {
        return Thrown(IllegalArgument(InProgressMessage));
      }
      operationUiState := Loading;
      return Returned(());
    }

    /** `resetOperation`: back to Idle from any state. */
    method ResetOperation()
      modifies this
      ensures operationUiState == Idle
    {
      operationUiState := Idle;
    }

    /** An operation's outcome, written by the subclass once its call finishes. */
    method Finish(s: OperationUiState)
      modifies this
      ensures operationUiState == s
    {
      operationUiState := s;
    }
  }
}
