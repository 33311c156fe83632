/**
 * viewmodel/AccountViewModel.kt: the signed-in user and the display
 * settings, as the account and settings screens show them.  The
 * authentication service is outside the model: each call receives the
 * service's answer as an argument.
 */
module AccountViewModels {
  import opened Results
  import opened Notifications
  import opened SettingsRepositories
  import BV = BaseViewModels

  /** A signed-in user, known by its id. */
  datatype FirebaseUser = FirebaseUser(uid: string)

  /** `AccountUiState` */
  datatype AccountUiState = Loading | NoUser | User(user: FirebaseUser) | Error(message: string)

  /** `SettingsUiState` */
  datatype SettingsUiState = Loading | Display(settings: Settings) | Error(message: string)

  const SignInSuccessMessage := "Accesso effettuato"
  const SignUpSuccessMessage := "Registrazione effettuata"
  const SignOutSuccessMessage := "Disconnessione effettuata"
  const PasswordResetEmailSentMessage := "Email di reset password inviata"
  const EmailVerificationSentMessage := "Email di verifica inviata"
  const AccountUpdatedMessage := "Account aggiornato"
  const SettingsUpdatedMessage := "Impostazioni aggiornate"

  /**
   * The account state after `getCurrentUser` answers: no user, the user, or
   * the error; a `ServiceLayerError` runs no handler and changes nothing.
   */
  function AccountStateOf(current: AccountUiState, r: Result<Option<FirebaseUser>>): (s: AccountUiState)
    ensures r == Success(None) ==> s == NoUser
    ensures r.Success? && r.data.Some? ==> s == User(r.data.value)
    ensures r.Error? ==> s == AccountUiState.Error(r.error.Message())
    ensures r.ServiceLayerError? ==> s == current
  {
    match r
    case Success(user) => if user.None? then NoUser else User(user.value)
    case Error(e) => AccountUiState.Error(e.Message())
    case ServiceLayerError(_) => current
  }

  /**
   * The settings `updateSettings` asks for: each field given overrides the
   * current one, each field omitted keeps it.
   */
  function Merge(current: Settings, imagesSize: Option<ImagesSize>, boldText: Option<bool>,
                 notificationFilter: Option<NotificationFilter>): Settings
  {
    Settings(if imagesSize.Some? then imagesSize.value else current.imagesSize,
             if boldText.Some? then boldText.value else current.boldText,
             if notificationFilter.Some? then notificationFilter.value else current.notificationFilter)
  }

  /** Omitting every field asks for the current settings, and merging twice is merging once. */
  lemma MergeProperties(current: Settings, imagesSize: Option<ImagesSize>, boldText: Option<bool>,
                        notificationFilter: Option<NotificationFilter>)
    ensures Merge(current, None, None, None) == current
    ensures var m := Merge(current, imagesSize, boldText, notificationFilter);
            Merge(m, imagesSize, boldText, notificationFilter) == m
    ensures imagesSize.None? ==> Merge(current, imagesSize, boldText, notificationFilter).imagesSize == current.imagesSize
    ensures boldText.None? ==> Merge(current, imagesSize, boldText, notificationFilter).boldText == current.boldText
    ensures notificationFilter.None? ==>
              Merge(current, imagesSize, boldText, notificationFilter).notificationFilter == current.notificationFilter
  {
  }

  class AccountViewModel {
    const base: BV.BaseViewModel
    const settings: SettingsRepository
    var accountUiState: AccountUiState
    var settingsUiState: SettingsUiState
    var isInitialized: bool

    constructor (settings: SettingsRepository)
      ensures this.settings == settings && fresh(base) && base.operationUiState == BV.Idle
      ensures accountUiState == AccountUiState.Loading && settingsUiState == SettingsUiState.Loading && !isInitialized
    {
      this.settings := settings;
      base := new BV.BaseViewModel();
      accountUiState := AccountUiState.Loading;
      settingsUiState := SettingsUiState.Loading;
      isInitialized := false;
    }

    /**
     * `initialize`: only the first call shows the current user (from
     * `currentUser`, the authentication service's answer) and starts
     * collecting the settings flow.  The flow getter cannot fail, so its
     * error branch is never taken; an unusable DataStore throws out of the
     * collecting coroutine instead (`c`), and the settings screen stays as
     * it was.  The account state is set by a coroutine of its own either way.
     */
    method Initialize(currentUser: Result<Option<FirebaseUser>>) returns (c: Completion<()>)
      modifies this`isInitialized, this`accountUiState, this`settingsUiState
      ensures isInitialized
      ensures old(isInitialized) ==>
                c == Returned(()) && accountUiState == old(accountUiState) && settingsUiState == old(settingsUiState)
      ensures !old(isInitialized) ==> accountUiState == AccountStateOf(old(accountUiState), currentUser)
      ensures !old(isInitialized) && !settings.faulty ==> c == Returned(()) && settingsUiState == Display(settings.settings)
      ensures !old(isInitialized) && settings.faulty ==> c == Thrown(StorageFailure) && settingsUiState == old(settingsUiState)
    {
      if isInitialized {
        return Returned(());
      }
      isInitialized := true;
      accountUiState := AccountStateOf(accountUiState, currentUser);
      var read := settings.CollectSettingsFlow();
      if read.Thrown? {
        return Thrown(read.crash);
      }
      settingsUiState := Display(read.result);
      return Returned(());
    }

    /**
     * The shared body of `signIn` and `signUp`: a signed-in user becomes the
     * account state; an error only reaches the operation state.
     */
    method Authenticate(outcome: Result<FirebaseUser>, successMessage: string) returns (c: Completion<()>)
      modifies base, this`accountUiState
      ensures old(base.operationUiState) == BV.Loading ==>
                c == Thrown(IllegalArgument(BV.InProgressMessage)) && base.operationUiState == BV.Loading &&
                accountUiState == old(accountUiState)
      ensures old(base.operationUiState) != BV.Loading ==>
                c == Returned(()) && base.operationUiState == BV.ReportRepository(outcome, successMessage, INFO)
      ensures old(base.operationUiState) != BV.Loading && outcome.Success? ==> accountUiState == User(outcome.data)
      ensures !(old(base.operationUiState) != BV.Loading && outcome.Success?) ==> accountUiState == old(accountUiState)
    {
      c := base.StartOperation();
      if c.Thrown? {
        return;
      }
      base.Finish(BV.ReportRepository(outcome, successMessage, INFO));
      if outcome.Success? {
        accountUiState := User(outcome.data);
      }
    }

    /** `signIn` */
    method SignIn(outcome: Result<FirebaseUser>) returns (c: Completion<()>)
      modifies base, this`accountUiState
      ensures old(base.operationUiState) == BV.Loading ==>
                c == Thrown(IllegalArgument(BV.InProgressMessage)) && base.operationUiState == BV.Loading &&
                accountUiState == old(accountUiState)
      ensures old(base.operationUiState) != BV.Loading ==>
                c == Returned(()) && base.operationUiState == BV.ReportRepository(outcome, SignInSuccessMessage, INFO)
      ensures old(base.operationUiState) != BV.Loading && outcome.Success? ==> accountUiState == User(outcome.data)
      ensures !(old(base.operationUiState) != BV.Loading && outcome.Success?) ==> accountUiState == old(accountUiState)
    {
      c := Authenticate(outcome, SignInSuccessMessage);
    }

    /** `signUp` */
    method SignUp(outcome: Result<FirebaseUser>) returns (c: Completion<()>)
      modifies base, this`accountUiState
      ensures old(base.operationUiState) == BV.Loading ==>
                c == Thrown(IllegalArgument(BV.InProgressMessage)) && base.operationUiState == BV.Loading &&
                accountUiState == old(accountUiState)
      ensures old(base.operationUiState) != BV.Loading ==>
                c == Returned(()) && base.operationUiState == BV.ReportRepository(outcome, SignUpSuccessMessage, INFO)
      ensures old(base.operationUiState) != BV.Loading && outcome.Success? ==> accountUiState == User(outcome.data)
      ensures !(old(base.operationUiState) != BV.Loading && outcome.Success?) ==> accountUiState == old(accountUiState)
    {
      c := Authenticate(outcome, SignUpSuccessMessage);
    }

    /** `signOut`: reported as IMPORTANT, and the account shows no user. */
    method SignOut(outcome: Result<()>) returns (c: Completion<()>)
      modifies base, this`accountUiState
      ensures old(base.operationUiState) == BV.Loading ==>
                c == Thrown(IllegalArgument(BV.InProgressMessage)) && base.operationUiState == BV.Loading &&
                accountUiState == old(accountUiState)
      ensures old(base.operationUiState) != BV.Loading ==>
                c == Returned(()) && base.operationUiState == BV.ReportRepository(outcome, SignOutSuccessMessage, NotificationType.IMPORTANT)
      ensures old(base.operationUiState) != BV.Loading && outcome.Success? ==> accountUiState == NoUser
      ensures !(old(base.operationUiState) != BV.Loading && outcome.Success?) ==> accountUiState == old(accountUiState)
    {
      c := base.StartOperation();
      if c.Thrown? {
        return;
      }
      base.Finish(BV.ReportRepository(outcome, SignOutSuccessMessage, NotificationType.IMPORTANT));
      if outcome.Success? {
        accountUiState := NoUser;
      }
    }

    /** The shared body of the calls that only report their outcome. */
    method Notify(outcome: Result<()>, successMessage: string, notificationType: NotificationType) returns (c: Completion<()>)
      modifies base
      ensures old(base.operationUiState) == BV.Loading ==>
                c == Thrown(IllegalArgument(BV.InProgressMessage)) && base.operationUiState == BV.Loading
      ensures old(base.operationUiState) != BV.Loading ==>
                c == Returned(()) && base.operationUiState == BV.ReportRepository(outcome, successMessage, notificationType)
    {
      c := base.StartOperation();
      if c.Thrown? {
        return;
      }
      base.Finish(BV.ReportRepository(outcome, successMessage, notificationType));
    }

    /** `sendPasswordResetEmail`: a success is FORCE, shown whatever the filter. */
    method SendPasswordResetEmail(outcome: Result<()>) returns (c: Completion<()>)
      modifies base
      ensures old(base.operationUiState) == BV.Loading ==>
                c == Thrown(IllegalArgument(BV.InProgressMessage)) && base.operationUiState == BV.Loading
      ensures old(base.operationUiState) != BV.Loading ==>
                c == Returned(()) && base.operationUiState == BV.ReportRepository(outcome, PasswordResetEmailSentMessage, FORCE)
    {
      c := Notify(outcome, PasswordResetEmailSentMessage, FORCE);
    }

    /** `sendEmailVerification`: a success is FORCE. */
    method SendEmailVerification(outcome: Result<()>) returns (c: Completion<()>)
      modifies base
      ensures old(base.operationUiState) == BV.Loading ==>
                c == Thrown(IllegalArgument(BV.InProgressMessage)) && base.operationUiState == BV.Loading
      ensures old(base.operationUiState) != BV.Loading ==>
                c == Returned(()) && base.operationUiState == BV.ReportRepository(outcome, EmailVerificationSentMessage, FORCE)
    {
      c := Notify(outcome, EmailVerificationSentMessage, FORCE);
    }

    /** `updateAccount` */
    method UpdateAccount(outcome: Result<()>) returns (c: Completion<()>)
      modifies base
      ensures old(base.operationUiState) == BV.Loading ==>
                c == Thrown(IllegalArgument(BV.InProgressMessage)) && base.operationUiState == BV.Loading
      ensures old(base.operationUiState) != BV.Loading ==>
                c == Returned(()) && base.operationUiState == BV.ReportRepository(outcome, AccountUpdatedMessage, INFO)
    {
      c := Notify(outcome, AccountUpdatedMessage, INFO);
    }

    /**
     * `updateSettings`: starts from the settings on screen, overrides the
     * fields given, and stores the result.  Settings not yet on screen fail
     * the `as SettingsUiState.Display` cast.  The screen follows the stored
     * settings, so a stored update is shown.
     */
    method UpdateSettings(imagesSize: Option<ImagesSize>, boldText: Option<bool>,
                          notificationFilter: Option<NotificationFilter>) returns (c: Completion<()>)
      modifies base, settings`settings, this`settingsUiState
      ensures old(base.operationUiState) == BV.Loading ==>
                c == Thrown(IllegalArgument(BV.InProgressMessage)) && base.operationUiState == BV.Loading &&
                settings.settings == old(settings.settings) && settingsUiState == old(settingsUiState)
      ensures old(base.operationUiState) != BV.Loading && !old(settingsUiState).Display? ==>
                c == Thrown(ClassCast) && base.operationUiState == BV.Loading &&
                settings.settings == old(settings.settings) && settingsUiState == old(settingsUiState)
      ensures old(base.operationUiState) != BV.Loading && old(settingsUiState).Display? ==>
                var merged := Merge(old(settingsUiState).settings, imagesSize, boldText, notificationFilter);
                c == Returned(()) &&
                (!settings.faulty ==>
                   settings.settings == merged && settingsUiState == Display(merged) &&
                   base.operationUiState == BV.OperationUiState.Success(SettingsUpdatedMessage, INFO)) &&
                (settings.faulty ==>
                   settings.settings == old(settings.settings) && settingsUiState == old(settingsUiState) &&
                   base.operationUiState == BV.OperationUiState.Error(UnknownSettingsMessage))
    {
      c := base.StartOperation();
      if c.Thrown? {
        return;
      }
      if !settingsUiState.Display? {
        return Thrown(ClassCast);
      }
      var newSettings := settingsUiState.settings;
      if imagesSize.Some? {
        newSettings := newSettings.(imagesSize := imagesSize.value);
      }
      if boldText.Some? {
        newSettings := newSettings.(boldText := boldText.value);
      }
      if notificationFilter.Some? {
        newSettings := newSettings.(notificationFilter := notificationFilter.value);
      }
      var r := settings.UpdateSettings(newSettings);
      base.Finish(BV.ReportRepository(r, SettingsUpdatedMessage, INFO));
      if r.Success? {
        settingsUiState := Display(settings.settings);
      }
    }
  }
}
