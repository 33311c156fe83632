/**
 * viewmodel/AccountDatabaseViewModel.kt: copies the display settings to the
 * user's cloud record and back.  The uploaded record holds the image size
 * (as its enum number) and the bold-text flag; a retrieved record is checked
 * and turned back into settings.  The authentication service and the cloud
 * database are outside the model: each call receives their answers as
 * arguments.
 */
module AccountDatabaseViewModels {
  import opened Results
  import opened Model
  import opened Notifications
  import opened SettingsRepositories
  import opened Text
  import opened AccountViewModels
  import BV = BaseViewModels

  const UploadUserDataSuccessMessage := "Caricamento dati utente avvenuto con successo"
  const RetrieveUserDataSuccessMessage := "Recupero dati utente avvenuto con successo"
  /** The message as the source file spells it (its accented letter is stored twice encoded). */
  const UserIsNullMessage := "L'utente \U{C3}\U{A8} nullo"
  const UserDataNotUploadedMessage := "I dati dell'utente non sono stati caricati"
  const UserDataCorruptedMessage := "I dati dell'utente sono corrotti"

  const ImagesSizeKey := "imagesSize"
  const BoldTextKey := "boldText"

  /** The record `uploadUserData` builds from the settings. */
  function Payload(s: Settings): (c: Completion<JsonObject>)
    ensures c.Thrown? <==> s.imagesSize == ImagesSize.UNRECOGNIZED
    ensures c.Thrown? ==> c == Thrown(Number(s.imagesSize).crash)
    ensures c.Returned? ==> c.result.Keys == {ImagesSizeKey, BoldTextKey}
    ensures c.Returned? ==> c.result[ImagesSizeKey] == JInt(Number(s.imagesSize).result)
    ensures c.Returned? ==> c.result[BoldTextKey] == JBool(s.boldText)
  {
    match Number(s.imagesSize)
    case Thrown(e) => Thrown(e)
    case Returned(n) => Returned(map[ImagesSizeKey := JInt(n), BoldTextKey := JBool(s.boldText)])
  }

  /** Kotlin `is Int` / `is Boolean` on a stored value. */
  predicate IsInt(v: JsonValue) { v.JInt? }
  predicate IsBoolean(v: JsonValue) { v.JBool? }

  /** A number's `intValue()`: the fraction is dropped, toward zero. */
  function Truncate(r: real): (n: int)
    ensures r >= 0.0 ==> n as real <= r < n as real + 1.0
    ensures r < 0.0 ==> n as real - 1.0 < r <= n as real
  {
    if r >= 0.0 then r.Floor else -((-r).Floor)
  }

  /** `getInt`: a number, truncated; a missing key or any other value throws. */
  function GetInt(obj: JsonObject, key: string): (c: Completion<int>)
    ensures c.Returned? <==> key in obj && (obj[key].JInt? || obj[key].JReal?)
    ensures c.Thrown? ==> c.crash == JsonFailure
    ensures key in obj && obj[key].JInt? ==> c == Returned(obj[key].i)
  {
    if key !in obj then Thrown(JsonFailure)
    else match obj[key]
      case JInt(i) => Returned(i)
      case JReal(r) => Returned(Truncate(r))
      case _ => Thrown(JsonFailure)
  }

  /** A text `getBoolean` accepts: "true" or "false" in any mix of letter cases. */
  predicate IsBooleanText(t: string) {
    ToLower(t) == "true" || ToLower(t) == "false"
  }

  /**
   * `getBoolean`: a boolean, or a text spelling one in any case; a missing
   * key or any other value throws.
   */
  function GetBoolean(obj: JsonObject, key: string): (c: Completion<bool>)
    ensures c.Returned? <==> key in obj && (obj[key].JBool? || (obj[key].JText? && IsBooleanText(obj[key].s)))
    ensures c.Returned? && obj[key].JBool? ==> c.result == obj[key].b
    ensures c.Returned? && obj[key].JText? ==> (c.result <==> ToLower(obj[key].s) == "true")
    ensures c.Thrown? ==> c.crash == JsonFailure
  {
    if key !in obj then Thrown(JsonFailure)
    else match obj[key]
      case JBool(b) => Returned(b)
      case JText(t) =>
        if ToLower(t) == "true" then Returned(true)
        else if ToLower(t) == "false" then Returned(false)
        else Thrown(JsonFailure)
      case _ => Thrown(JsonFailure)
  }

  /** The spellings `getBoolean` reads back, whatever their case. */
  lemma GetBooleanTexts(obj: JsonObject, key: string)
    requires key in obj
    ensures obj[key] == JText("TRUE") || obj[key] == JText("True") ==> GetBoolean(obj, key) == Returned(true)
    ensures obj[key] == JText("FALSE") || obj[key] == JText("False") ==> GetBoolean(obj, key) == Returned(false)
    ensures obj[key] == JText("yes") ==> GetBoolean(obj, key) == Thrown(JsonFailure)
  {
    match obj[key]
    case JText(t) =>
      var lower := ToLower(t);
      if t == "TRUE" || t == "True" {
        assert lower[..] == ['t', 'r', 'u', 'e'];
      } else if t == "FALSE" || t == "False" {
        assert lower[..] == ['f', 'a', 'l', 's', 'e'];
      } else if t == "yes" {
        assert lower[..] == ['y', 'e', 's'];
      }
    case _ =>
  }

  /** How a retrieved record is read back. */
  datatype Retrieved =
    | Crashed(crash: Crash)
    | NotUploaded
    | Corrupted
    | Decoded(imagesSize: ImagesSize, boldText: bool)

  /**
   * The record check as written, `!has(k) && get(k) !is T`: for a missing
   * key `get` throws, and for a present key the test is false whatever the
   * value.  `Returned(true)` would mean "reject".
   */
  function GuardAsWritten(obj: JsonObject, key: string, isInt: bool): (c: Completion<bool>)
    ensures key !in obj ==> c == Thrown(JsonFailure)
    ensures key in obj ==> c == Returned(false)
  {
    if !(key in obj) then
      Thrown(JsonFailure)  // `get` of a missing key
    else
      var value := obj[key];
      Returned(!(key in obj) && !(if isInt then IsInt(value) else IsBoolean(value)))
  }

  /** `retrieveUserData`'s reading of a record, with the checks as written. */
  function DecodeAsWritten(obj: JsonObject): Retrieved {
    if |obj| == 0 then NotUploaded
    else match GuardAsWritten(obj, ImagesSizeKey, true)
      case Thrown(e) => Crashed(e)
      case Returned(reject) =>
        if reject then Corrupted
        else match GuardAsWritten(obj, BoldTextKey, false)
          case Thrown(e) => Crashed(e)
          case Returned(reject) =>
            if reject then Corrupted
            else match GetInt(obj, ImagesSizeKey)
              case Thrown(e) => Crashed(e)
              case Returned(n) =>
                match ForNumber(n)
                case None => Corrupted
                case Some(size) =>
                  match GetBoolean(obj, BoldTextKey)
                  case Thrown(e) => Crashed(e)
                  case Returned(b) => Decoded(size, b)
  }

  /** The check as intended, `!has(k) || get(k) !is T`: reject a missing key or a value of the wrong type. */
  predicate Rejects(obj: JsonObject, key: string, isInt: bool) {
    !(key in obj) || !(if isInt then IsInt(obj[key]) else IsBoolean(obj[key]))
  }

  /**
   * `retrieveUserData`'s reading of a record with the checks as intended:
   * an empty record was never uploaded; a record without an integer image
   * size and a boolean bold-text flag, or with an image size no enum value
   * has, is corrupted.
   */
  function Decode(obj: JsonObject): (r: Retrieved)
    ensures !r.Crashed?
    ensures r == NotUploaded <==> |obj| == 0
    ensures r.Decoded? <==> |obj| != 0 && ImagesSizeKey in obj && obj[ImagesSizeKey].JInt? &&
                            BoldTextKey in obj && obj[BoldTextKey].JBool? && ForNumber(obj[ImagesSizeKey].i).Some?
    ensures r.Decoded? ==> Some(r.imagesSize) == ForNumber(obj[ImagesSizeKey].i) && r.boldText == obj[BoldTextKey].b
  {
    if |obj| == 0 then NotUploaded
    else if Rejects(obj, ImagesSizeKey, true) then Corrupted
    else if Rejects(obj, BoldTextKey, false) then Corrupted
    else match GetInt(obj, ImagesSizeKey)
      case Thrown(e) => Crashed(e)
      case Returned(n) =>
        match ForNumber(n)
        case None => Corrupted
        case Some(size) =>
          match GetBoolean(obj, BoldTextKey)
          case Thrown(e) => Crashed(e)
          case Returned(b) => Decoded(size, b)
  }

  /**
   * Two records the intended checks report as corrupted but the code as
   * written crashes on: an image size stored as text, and a missing image
   * size.
   */
  lemma AsWrittenCrashesOnMalformedRecord()
    ensures var textSize := map[ImagesSizeKey := JText("LARGE"), BoldTextKey := JBool(true)];
            DecodeAsWritten(textSize) == Crashed(JsonFailure) && Decode(textSize) == Corrupted
    ensures var noSize := map[BoldTextKey := JBool(true)];
            DecodeAsWritten(noSize) == Crashed(JsonFailure) && Decode(noSize) == Corrupted
  {
    var textSize := map[ImagesSizeKey := JText("LARGE"), BoldTextKey := JBool(true)];
    assert |textSize| != 0 by {
      assert ImagesSizeKey in textSize;
    }
    var noSize := map[BoldTextKey := JBool(true)];
    assert |noSize| != 0 by {
      assert BoldTextKey in noSize;
    }
  }

  /**
   * Upload then retrieve: the record built from any settings whose image
   * size has a number reads back to the same image size and bold-text flag,
   * with the checks as written and as intended.
   */
  lemma PayloadRoundTrip(s: Settings)
    requires s.imagesSize != ImagesSize.UNRECOGNIZED
    ensures Payload(s).Returned?
    ensures Decode(Payload(s).result) == Decoded(s.imagesSize, s.boldText)
    ensures DecodeAsWritten(Payload(s).result) == Decoded(s.imagesSize, s.boldText)
  {
    var obj := Payload(s).result;
    assert |obj| != 0 by {
      assert ImagesSizeKey in obj;
    }
    ForNumberOfNumber(s.imagesSize);
  }

  class AccountDatabaseViewModel {
    const base: BV.BaseViewModel
    const settings: SettingsRepository

    constructor (settings: SettingsRepository)
      ensures this.settings == settings && fresh(base) && base.operationUiState == BV.Idle
    {
      this.settings := settings;
      base := new BV.BaseViewModel();
    }

    /**
     * `uploadUserData`: the current user (`currentUser`) and the stored
     * settings are looked up first, and their errors, or a missing user, are
     * reported before any upload; `payload` is the record handed to the cloud
     * database, whose answer is `uploaded`.
     */
    method UploadUserData(currentUser: Result<Option<FirebaseUser>>, uploaded: Result<()>)
      returns (c: Completion<()>, ghost payload: Option<JsonObject>)
      modifies base
      ensures old(base.operationUiState) == BV.Loading ==>
                c == Thrown(IllegalArgument(BV.InProgressMessage)) && base.operationUiState == BV.Loading && payload.None?
      ensures old(base.operationUiState) != BV.Loading && currentUser.Error? ==>
                c == Returned(()) && base.operationUiState == BV.OperationUiState.Error(currentUser.error.Message()) &&
                payload.None?
      ensures old(base.operationUiState) != BV.Loading && !currentUser.Error? && settings.faulty ==>
                c == Returned(()) && base.operationUiState == BV.OperationUiState.Error(UnknownSettingsMessage) &&
                payload.None?
      ensures old(base.operationUiState) != BV.Loading && currentUser.ServiceLayerError? && !settings.faulty ==>
                c == Thrown(ClassCast) && base.operationUiState == BV.Loading && payload.None?
      ensures old(base.operationUiState) != BV.Loading && currentUser == Success(None) && !settings.faulty ==>
                c == Returned(()) && base.operationUiState == BV.OperationUiState.Error(UserIsNullMessage) &&
                payload.None?
      ensures old(base.operationUiState) != BV.Loading && currentUser.Success? && currentUser.data.Some? && !settings.faulty ==>
                if Payload(settings.settings).Thrown? then
                  c == Thrown(Payload(settings.settings).crash) && base.operationUiState == BV.Loading && payload.None?
                else
                  c == Returned(()) && payload == Some(Payload(settings.settings).result) &&
                  base.operationUiState == BV.ReportRepository(uploaded, UploadUserDataSuccessMessage, FORCE)
    {
      payload := None;
      c := base.StartOperation();
      if c.Thrown? {
        return;
      }
      if currentUser.Error? {
        base.Finish(BV.OperationUiState.Error(currentUser.error.Message()));
        return;
      }
      var settingsResult := settings.GetSettings();
      if settingsResult.Error? {
        base.Finish(BV.OperationUiState.Error(settingsResult.error.Message()));
        return;
      }
      if !currentUser.Success? {
        return Thrown(ClassCast), payload;
      }
      if currentUser.data.None? {
        base.Finish(BV.OperationUiState.Error(UserIsNullMessage));
        return;
      }
      var record := Payload(settingsResult.data);
      if record.Thrown? {
        return Thrown(record.crash), payload;
      }
      payload := Some(record.result);
      base.Finish(BV.ReportRepository(uploaded, UploadUserDataSuccessMessage, FORCE));
    }

    /**
     * `retrieveUserData`: the current user (`currentUser`) is looked up, then
     * the cloud database's answer (`retrieved`) is checked step by step, and
     * only a well-formed record replaces the stored settings, with the
     * notification filter back at its default.
     */
    method RetrieveUserData(currentUser: Result<Option<FirebaseUser>>, retrieved: Result<JsonObject>)
      returns (c: Completion<()>)
      modifies base, settings`settings
      ensures old(base.operationUiState) == BV.Loading ==>
                c == Thrown(IllegalArgument(BV.InProgressMessage)) && base.operationUiState == BV.Loading &&
                settings.settings == old(settings.settings)
      ensures old(base.operationUiState) != BV.Loading && currentUser.Error? ==>
                c == Returned(()) && base.operationUiState == BV.OperationUiState.Error(currentUser.error.Message()) &&
                settings.settings == old(settings.settings)
      ensures old(base.operationUiState) != BV.Loading && currentUser.ServiceLayerError? ==>
                c == Thrown(ClassCast) && base.operationUiState == BV.Loading && settings.settings == old(settings.settings)
      ensures old(base.operationUiState) != BV.Loading && currentUser == Success(None) ==>
                c == Returned(()) && base.operationUiState == BV.OperationUiState.Error(UserIsNullMessage) &&
                settings.settings == old(settings.settings)
      ensures old(base.operationUiState) != BV.Loading && currentUser.Success? && currentUser.data.Some? ==>
                c == Returned(()) &&
                match retrieved
                case Error(e) =>
                  base.operationUiState == BV.OperationUiState.Error(e.Message()) && settings.settings == old(settings.settings)
                case ServiceLayerError(_) =>
                  base.operationUiState == BV.Loading && settings.settings == old(settings.settings)
                case Success(obj) =>
                  match Decode(obj)
                  case NotUploaded =>
                    base.operationUiState == BV.OperationUiState.Error(UserDataNotUploadedMessage) &&
                    settings.settings == old(settings.settings)
                  case Decoded(size, bold) =>
                    (!settings.faulty ==>
                       settings.settings == Settings(size, bold, ALL) &&
                       base.operationUiState == BV.OperationUiState.Success(RetrieveUserDataSuccessMessage, FORCE)) &&
                    (settings.faulty ==>
                       settings.settings == old(settings.settings) &&
                       base.operationUiState == BV.OperationUiState.Error(UnknownSettingsMessage))
                  case _ =>
                    base.operationUiState == BV.OperationUiState.Error(UserDataCorruptedMessage) &&
                    settings.settings == old(settings.settings)
    {
      c := base.StartOperation();
      if c.Thrown? {
        return;
      }
      if currentUser.Error? {
        base.Finish(BV.OperationUiState.Error(currentUser.error.Message()));
        return;
      }
      if !currentUser.Success? {
        return Thrown(ClassCast);
      }
      if currentUser.data.None? {
        base.Finish(BV.OperationUiState.Error(UserIsNullMessage));
        return;
      }
      match retrieved {
        case Error(e) =>
          base.Finish(BV.OperationUiState.Error(e.Message()));
        case ServiceLayerError(_) =>
        case Success(obj) =>
          if |obj| == 0 {
            base.Finish(BV.OperationUiState.Error(UserDataNotUploadedMessage));
            return;
          }
          if Rejects(obj, ImagesSizeKey, true) {
            base.Finish(BV.OperationUiState.Error(UserDataCorruptedMessage));
            return;
          }
          if Rejects(obj, BoldTextKey, false) {
            base.Finish(BV.OperationUiState.Error(UserDataCorruptedMessage));
            return;
          }
          var size := ForNumber(obj[ImagesSizeKey].i);
          if size.None? {
            base.Finish(BV.OperationUiState.Error(UserDataCorruptedMessage));
            return;
          }
          var newSettings := Settings(size.value, obj[BoldTextKey].b, DefaultSettings.notificationFilter);
          var r := settings.UpdateSettings(newSettings);
          base.Finish(BV.ReportRepository(r, RetrieveUserDataSuccessMessage, FORCE));
      }
    }
  }
}
