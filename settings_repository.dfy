/**
 * The user's display settings (a protocol-buffer message kept in a
 * DataStore) and repository/settings/SettingsRepository.kt, which reads and
 * replaces them.
 */
module SettingsRepositories {
  import opened Results
  import opened Notifications

  /**
   * The image-size enum.  `UNRECOGNIZED` stands for a number this version
   * of the app does not know.
   */
  datatype ImagesSize = SMALL | MEDIUM | LARGE | UNRECOGNIZED

  /** The enum's wire number; asking `UNRECOGNIZED` for its number throws. */
  function Number(size: ImagesSize): (c: Completion<int>)
    ensures c.Thrown? <==> size == ImagesSize.UNRECOGNIZED
    ensures c.Thrown? ==> c.crash.IllegalArgument?
    ensures c.Returned? ==> 0 <= c.result <= 2
  {
    match size
    case SMALL => Returned(0)
    case MEDIUM => Returned(1)
    case LARGE => Returned(2)
    case _ => Thrown(IllegalArgument("Can't get the number of an unknown enum value."))
  }

  /** `ImagesSize.forNumber`: `None` for a number with no declared value. */
  function ForNumber(n: int): (r: Option<ImagesSize>)
    ensures r.Some? <==> 0 <= n <= 2
    ensures r.Some? ==> r.value != ImagesSize.UNRECOGNIZED
  {
    if n == 0 then Some(SMALL) else if n == 1 then Some(MEDIUM) else if n == 2 then Some(LARGE) else None
  }

  /** `forNumber` inverts `getNumber` on every declared value. */
  lemma ForNumberOfNumber(size: ImagesSize)
    requires size != ImagesSize.UNRECOGNIZED
    ensures Number(size).Returned? && ForNumber(Number(size).result) == Some(size)
  {
  }

  /** The `Settings` message. */
  datatype Settings = Settings(imagesSize: ImagesSize, boldText: bool, notificationFilter: NotificationFilter)

  /** A message with no field set: every field holds its zero value. */
  const DefaultSettings := Settings(SMALL, false, ALL)

  const UnknownSettingsMessage := "An unknown error occurred"

  class SettingsRepository {
    /** The DataStore contents. */
    var settings: Settings
    /** The DataStore cannot be read or written. */
    var faulty: bool

    constructor ()
      ensures settings == DefaultSettings && !faulty
    {
      settings := DefaultSettings;
      faulty := false;
    }

    /**
     * `getSettingsFlow` collected: the getter only hands out the DataStore's
     * flow and cannot fail; reading the file happens at collection, where an
     * unusable DataStore throws to the collector.
     */
    method CollectSettingsFlow() returns (c: Completion<Settings>)
      ensures !faulty ==> c == Returned(settings)
      ensures faulty ==> c == Thrown(StorageFailure)
    {
      if faulty {
        return Thrown(StorageFailure);
      }
      return Returned(settings);
    }

    /** `getSettings`: the first value of the flow, with a failure caught. */
    method GetSettings() returns (r: Result<Settings>)
      ensures !faulty ==> r == Success(settings)
      ensures faulty ==> r == Error(UnknownRepositoryError(UnknownSettingsMessage))
    {
      if faulty {
        return Error(UnknownRepositoryError(UnknownSettingsMessage));
      }
      return Success(settings);
    }

    /** `updateSettings`: replaces the whole message. */
    method UpdateSettings(s: Settings) returns (r: Result<()>)
      modifies this`settings
      ensures !faulty ==> r == Success(()) && settings == s
      ensures faulty ==> r == Error(UnknownRepositoryError(UnknownSettingsMessage)) && settings == old(settings)
    {
      if faulty {
        return Error(UnknownRepositoryError(UnknownSettingsMessage));
      }
      settings := s;
      return Success(());
    }
  }
}
