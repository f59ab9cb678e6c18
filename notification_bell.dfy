/** The notification bell: the unread badge, the mark-all button, the list of
    at most ten notifications, and what clicking one of them does. */
module NotificationBell {
  import opened Common
  import opened Notifications

  /** The badge appears exactly when something is unread. */
  predicate BadgeShown(unreadCount: int)
  {
    unreadCount > 0
  }

  /** The badge text: "9+" above nine, the number itself otherwise. */
  function BadgeText(unreadCount: int): (t: string)
    requires BadgeShown(unreadCount)
    ensures unreadCount > 9 ==> t == "9+"
    ensures unreadCount <= 9 ==> |t| == 1 && IsDigit(t[0]) && DigitValue(t[0]) == unreadCount
  {
    if unreadCount > 9 then "9+" else NatToString(unreadCount)
  }

  /** The mark-all button appears exactly when the badge does. */
  predicate MarkAllShown(unreadCount: int)
  {
    unreadCount > 0
  }

  /** The popover body: the empty-state message, or the first ten notifications
      in list order. */
  datatype ListView = EmptyMessage | Items(shown: seq<Notification>)

  function ListFor(notifications: seq<Notification>): (v: ListView)
    ensures v.EmptyMessage? <==> notifications == []
    ensures v.Items? ==> |v.shown| == if |notifications| < 10 then |notifications| else 10
    ensures v.Items? ==> v.shown <= notifications
  {
    if notifications == [] then EmptyMessage
    else if |notifications| <= 10 then Items(notifications)
    else Items(notifications[..10])
  }

  /** Clicking a listed notification: marks it read only if it is unread. */
  function OnClick(n: Notification): (w: ReadWrite)
    ensures w.MarkRead? <==> !n.isRead
    ensures w.MarkRead? ==> w.id == n.id
    ensures n.isRead ==> w == NoWrite
  {
    if !n.isRead then MarkAsRead(n.id) else NoWrite
  }

  /** The counter the bell shows after its hook is seeded: it has a badge iff some
      fetched notification is unread. */
  lemma BadgeAfterSeed(fetched: seq<Notification>)
    ensures BadgeShown(CountUnread(fetched)) <==> exists i :: 0 <= i < |fetched| && !fetched[i].isRead
  {
  }

  /** The mark-all button and the badge appear and disappear together, so the
      button is offered exactly when some seeded notification is unread. */
  lemma MarkAllShownWithBadge(fetched: seq<Notification>)
    ensures MarkAllShown(CountUnread(fetched)) <==> BadgeShown(CountUnread(fetched))
    ensures MarkAllShown(CountUnread(fetched)) <==> exists i :: 0 <= i < |fetched| && !fetched[i].isRead
  {
  }
}
