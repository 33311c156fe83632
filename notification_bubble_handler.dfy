/**
 * The notification bubble handler (util/NotificationBubbleHandler.kt and
 * util/INotificationBubbleHandler.kt): a user-chosen filter decides which
 * messages reach the screen as a toast.
 */
module Notifications {

  /** How important a message is. */
  datatype NotificationType = INFO | IMPORTANT | ERROR | FORCE

  /**
   * The user's filter setting, a protocol-buffer enum: besides its three
   * declared values it can hold `UNRECOGNIZED` (a number written by another
   * version of the app).
   */
  datatype NotificationFilter = ALL | IMPORTANT | ERROR_ONLY | UNRECOGNIZED

  /**
   * The `displayBubble` decision: is a message of `notificationType` shown
   * under `filter`?  IMPORTANT hides INFO only, ERROR_ONLY also hides
   * IMPORTANT, and every other filter value hides nothing.
   */
  predicate Shows(filter: NotificationFilter, notificationType: NotificationType)
  {
    !((filter == NotificationFilter.IMPORTANT &&
       notificationType !in [NotificationType.IMPORTANT, ERROR, FORCE]) ||
      (filter == ERROR_ONLY && notificationType !in [ERROR, FORCE]))
  }

  /** The decision, filter by filter. */
  lemma ShowsByFilter(filter: NotificationFilter, notificationType: NotificationType)
    ensures filter == ALL || filter == UNRECOGNIZED ==> Shows(filter, notificationType)
    ensures filter == NotificationFilter.IMPORTANT ==>
              (Shows(filter, notificationType) <==> notificationType != INFO)
    ensures filter == ERROR_ONLY ==>
              (Shows(filter, notificationType) <==> notificationType == ERROR || notificationType == FORCE)
  {
  }

  /** Errors and forced messages get through every filter. */
  lemma ErrorsAlwaysShown(filter: NotificationFilter)
    ensures Shows(filter, ERROR) && Shows(filter, FORCE)
  {
  }

  /** The shown sets are nested: ALL contains IMPORTANT, which contains ERROR_ONLY. */
  lemma FiltersNested(notificationType: NotificationType)
    ensures Shows(ERROR_ONLY, notificationType) ==> Shows(NotificationFilter.IMPORTANT, notificationType)
    ensures Shows(NotificationFilter.IMPORTANT, notificationType) ==> Shows(ALL, notificationType)
  {
  }

  class NotificationBubbleHandler {
    var notificationFilter: NotificationFilter
    /** The toasts put on screen so far, oldest first. */
    var shown: seq<string>

    /** The filter starts at ALL. */
    constructor ()
      ensures notificationFilter == ALL && shown == []
    {
      notificationFilter := ALL;
      shown := [];
    }

    /** `displayBubble`: one toast exactly when the current filter lets the type through. */
    method DisplayBubble(message: string, notificationType: NotificationType)
      modifies this`shown
      ensures Shows(notificationFilter, notificationType) ==> shown == old(shown) + [message]
      ensures !Shows(notificationFilter, notificationType) ==> shown == old(shown)
    {
      if (notificationFilter == NotificationFilter.IMPORTANT &&
          notificationType !in [NotificationType.IMPORTANT, ERROR, FORCE]) ||
         (notificationFilter == ERROR_ONLY && notificationType !in [ERROR, FORCE]) {
        return;
      }
      shown := shown + [message];
    }
  }
}
