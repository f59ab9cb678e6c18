/** The notification hook: the viewer's notification list, newest first, and an
    unread counter, seeded from one read and patched by INSERT and UPDATE
    events on the viewer's `notifications` rows. */
module Notifications {
  import opened Common

  datatype Notification = Notification(
    id: string,
    userId: UserId,
    kind: string,
    title: string,
    content: Option<string>,
    isRead: bool,
    createdAt: string)

  /** The seed read: rows of one user, ordered by one column, at most `limit` rows. */
  datatype NotificationQuery = NotificationQuery(userId: UserId, orderColumn: string, ascending: bool, limit: nat)

  /** How many notifications the seed read fetches. */
  const SeedLimit: nat := 50

  /** The seed read of the mount effect: none without a viewer; otherwise the
      viewer's rows, newest first, at most `SeedLimit` of them. */
  function SeedQuery(viewer: Option<UserId>): (q: Option<NotificationQuery>)
    ensures q.None? <==> viewer.None?
    ensures q.Some? ==> q.value.userId == viewer.value && q.value.limit == SeedLimit
    ensures q.Some? ==> q.value.orderColumn == "created_at" && !q.value.ascending
  {
    if viewer.None? then None else Some(NotificationQuery(viewer.value, "created_at", false, SeedLimit))
  }

  /** A result the backend may return for `q`: only the user's rows, at most `limit`. */
  predicate Answers(q: NotificationQuery, rows: seq<Notification>)
  {
    |rows| <= q.limit && forall i :: 0 <= i < |rows| ==> rows[i].userId == q.userId
  }

  /** Number of unread notifications in a list. */
  function CountUnread(s: seq<Notification>): (n: nat)
    ensures n <= |s|
    ensures n == 0 <==> forall i :: 0 <= i < |s| ==> s[i].isRead
  {
    if s == [] then 0 else (if s[0].isRead then 0 else 1) + CountUnread(s[1..])
  }

  /** `prev.map(n => n.id === row.id ? {...n, ...row} : n)`. The UPDATE image
      carries every column, so the merged notification is the new row. */
  function MergeById(s: seq<Notification>, row: Notification): (r: seq<Notification>)
    ensures |r| == |s|
    ensures forall i :: 0 <= i < |s| ==> r[i] == (if s[i].id == row.id then row else s[i])
  {
    if s == [] then [] else [if s[0].id == row.id then row else s[0]] + MergeById(s[1..], row)
  }

  lemma MergeUnknownIdIsIdentity(s: seq<Notification>, row: Notification)
    requires forall i :: 0 <= i < |s| ==> s[i].id != row.id
    ensures MergeById(s, row) == s
  {
  }

  /** Merging a row into the single notification with its id changes the unread
      count by what that one notification contributes before and after. */
  lemma {:induction false} CountUnreadAfterMerge(s: seq<Notification>, row: Notification, j: nat)
    requires j < |s| && s[j].id == row.id
    requires forall i :: 0 <= i < |s| && s[i].id == row.id ==> i == j
    ensures CountUnread(MergeById(s, row))
            == CountUnread(s) - (if s[j].isRead then 0 else 1) + (if row.isRead then 0 else 1)
  {
    var m := MergeById(s, row);
    assert m[1..] == MergeById(s[1..], row);
    if j == 0 {
      MergeUnknownIdIsIdentity(s[1..], row);
    } else {
      CountUnreadAfterMerge(s[1..], row, j - 1);
    }
  }

  /** The realtime client's unread bookkeeping for an UPDATE: the counter goes
      down by one when the new row is read and the old image does not say it
      was read (`!payload.old.is_read` is true when the old image lacks the column). */
  function UnreadAfterUpdate(count: int, row: Notification, oldIsRead: Option<bool>): (c: int)
    ensures c == count - 1 <==> row.isRead && oldIsRead != Some(true)
    ensures c == count || c == count - 1
  {
    if row.isRead && oldIsRead != Some(true) then count - 1 else count
  }

  /** A change event on the viewer's rows; an UPDATE carries the `is_read` of
      its old image when the image has that column. */
  datatype NotificationEvent = Inserted(row: Notification) | Updated(row: Notification, oldIsRead: Option<bool>)

  /** The list and the counter the hook keeps. */
  datatype View = View(notifications: seq<Notification>, unreadCount: int)

  /** One event: an INSERT prepends and counts one more, an UPDATE merges by id
      and adjusts the counter with `UnreadAfterUpdate`. */
  function AfterEvent(v: View, e: NotificationEvent): View
  {
    match e
    case Inserted(row) => View([row] + v.notifications, v.unreadCount + 1)
    case Updated(row, oldIsRead) => View(MergeById(v.notifications, row), UnreadAfterUpdate(v.unreadCount, row, oldIsRead))
  }

  /** The view after replaying events in the order they arrive. */
  function AfterEvents(v: View, evs: seq<NotificationEvent>): View
    decreases |evs|
  {
    if evs == [] then v else AfterEvents(AfterEvent(v, evs[0]), evs[1..])
  }

  function InsertCount(evs: seq<NotificationEvent>): nat
  {
    if evs == [] then 0 else (if evs[0].Inserted? then 1 else 0) + InsertCount(evs[1..])
  }

  /** One event: an INSERT puts one notification in front and adds one to the
      counter; an UPDATE keeps every id in place and moves the counter down by
      at most one. */
  lemma AfterEventShape(v: View, e: NotificationEvent)
    ensures var r := AfterEvent(v, e);
            var c := if e.Inserted? then 1 else 0;
            |r.notifications| == |v.notifications| + c
            && v.unreadCount - (1 - c) <= r.unreadCount <= v.unreadCount + c
            && forall i :: 0 <= i < |v.notifications| ==> r.notifications[c + i].id == v.notifications[i].id
  {
  }

  /** Replaying events grows the list by one per INSERT, and the counter rises
      by at most the number of INSERTs and falls by at most the number of UPDATEs. */
  lemma {:induction false} AfterEventsCounts(v: View, evs: seq<NotificationEvent>)
    ensures var r := AfterEvents(v, evs);
            |r.notifications| == |v.notifications| + InsertCount(evs)
            && v.unreadCount - (|evs| - InsertCount(evs)) <= r.unreadCount <= v.unreadCount + InsertCount(evs)
    decreases |evs|
  {
    if evs != [] {
      AfterEventShape(v, evs[0]);
      AfterEventsCounts(AfterEvent(v, evs[0]), evs[1..]);
    }
  }

  /** The ids of a list, in order. */
  function Ids(s: seq<Notification>): (r: seq<string>)
    ensures |r| == |s| && forall i :: 0 <= i < |s| ==> r[i] == s[i].id
  {
    seq(|s|, i requires 0 <= i < |s| => s[i].id)
  }

  /** One event keeps the ids held before: an INSERT puts one id in front, an
      UPDATE changes no id. */
  lemma AfterEventIds(v: View, e: NotificationEvent)
    ensures e.Inserted? ==> Ids(AfterEvent(v, e).notifications) == [e.row.id] + Ids(v.notifications)
    ensures e.Updated? ==> Ids(AfterEvent(v, e).notifications) == Ids(v.notifications)
  {
    var r := AfterEvent(v, e).notifications;
    if e.Inserted? {
      assert Ids(r) == [e.row.id] + Ids(v.notifications);
    } else {
      assert Ids(r) == Ids(v.notifications);
    }
  }

  /** Replaying events only prepends: the ids held before stay, in the same
      order, at the end of the list, after one new id per INSERT. */
  lemma {:induction false} AfterEventsKeepsTail(v: View, evs: seq<NotificationEvent>)
    ensures var ids := Ids(AfterEvents(v, evs).notifications);
            |ids| == |v.notifications| + InsertCount(evs) && ids[InsertCount(evs)..] == Ids(v.notifications)
    decreases |evs|
  {
    if evs != [] {
      var v1 := AfterEvent(v, evs[0]);
      var c := if evs[0].Inserted? then 1 else 0;
      var n := InsertCount(evs[1..]);
      AfterEventIds(v, evs[0]);
      AfterEventsKeepsTail(v1, evs[1..]);
      var ids := Ids(AfterEvents(v1, evs[1..]).notifications);
      assert ids[n..] == Ids(v1.notifications);
      assert Ids(v1.notifications)[c..] == Ids(v.notifications);
      assert ids[n + c..] == ids[n..][c..];
    }
  }

  /** State of `useNotifications()`. */
  class NotificationsHook {
    const viewer: Option<UserId>
    var notifications: seq<Notification>
    var unreadCount: int
    /** Whether the mount effect ran: the fetch was issued and the channel opened. */
    var subscribed: bool

    constructor (viewer: Option<UserId>)
      ensures this.viewer == viewer && notifications == [] && unreadCount == 0 && !subscribed
    {
      this.viewer := viewer;
      notifications := [];
      unreadCount := 0;
      subscribed := false;
    }

    /** Counter and list agree. */
    predicate Consistent()
      reads this
    {
      unreadCount == CountUnread(notifications)
    }

    /** The mount effect; `fetched` is the result of `SeedQuery(viewer)`,
        newest first (`Err` when the read failed). No viewer: nothing happens. */
    method Mount(fetched: Result<seq<Notification>>)
      modifies this
      ensures viewer.None? ==> notifications == old(notifications) && unreadCount == old(unreadCount)
                               && subscribed == old(subscribed)
      ensures viewer.Some? ==> subscribed
      ensures viewer.Some? && fetched.Ok? ==> notifications == fetched.value
                                              && unreadCount == CountUnread(fetched.value) && Consistent()
      ensures fetched.Err? ==> notifications == old(notifications) && unreadCount == old(unreadCount)
    {
      if viewer.None? {
        return;
      }
      if fetched.Ok? {
        notifications := fetched.value;
        unreadCount := CountUnread(fetched.value);
      }
      subscribed := true;
    }

    /** INSERT: the new notification goes first and the counter goes up by one,
        whether or not the row is read. */
    method ApplyInsert(row: Notification)
      requires subscribed
      modifies this`notifications, this`unreadCount
      ensures notifications == [row] + old(notifications)
      ensures unreadCount == old(unreadCount) + 1
      ensures View(notifications, unreadCount) == AfterEvent(View(old(notifications), old(unreadCount)), Inserted(row))
      ensures old(Consistent()) && !row.isRead ==> Consistent()
    {
      notifications := [row] + notifications;
      unreadCount := unreadCount + 1;
      assert notifications[1..] == old(notifications);
    }

    /** UPDATE: the row replaces the notification with its id (all others,
        the order and the length stay), and the counter follows `UnreadAfterUpdate`. */
    method ApplyUpdate(row: Notification, oldIsRead: Option<bool>)
      requires subscribed
      modifies this`notifications, this`unreadCount
      ensures notifications == MergeById(old(notifications), row)
      ensures |notifications| == |old(notifications)|
      ensures unreadCount == UnreadAfterUpdate(old(unreadCount), row, oldIsRead)
      ensures View(notifications, unreadCount) == AfterEvent(View(old(notifications), old(unreadCount)), Updated(row, oldIsRead))
    {
      notifications := MergeById(notifications, row);
      if row.isRead && oldIsRead != Some(true) {
        unreadCount := unreadCount - 1;
      }
    }
  }

  /** The seeded counter counts only the fetched rows: however many of the
      viewer's notifications are unread, it starts at no more than `SeedLimit`. */
  lemma SeededCounterBounded(viewer: UserId, rows: seq<Notification>)
    requires Answers(SeedQuery(Some(viewer)).value, rows)
    ensures CountUnread(rows) <= SeedLimit
  {
  }

  /** When the event's old image is the notification the list holds, ids are
      unique, and the update does not turn a read notification back to unread,
      the counter stays equal to the number of unread notifications. */
  lemma UpdateKeepsCounterExact(s: seq<Notification>, count: int, row: Notification, j: nat)
    requires count == CountUnread(s)
    requires j < |s| && s[j].id == row.id
    requires forall i :: 0 <= i < |s| && s[i].id == row.id ==> i == j
    requires !(s[j].isRead && !row.isRead)
    ensures UnreadAfterUpdate(count, row, Some(s[j].isRead)) == CountUnread(MergeById(s, row))
  {
    CountUnreadAfterMerge(s, row, j);
  }

  /** An UPDATE that reports a notification as read a second time, with an old
      image that does not carry `is_read`, lowers the counter below the true
      number of unread notifications. */
  lemma RepeatedReadWithoutOldImageUndercounts(s: seq<Notification>, row: Notification, j: nat)
    requires j < |s| && s[j].id == row.id && s[j].isRead && row.isRead
    requires forall i :: 0 <= i < |s| && s[i].id == row.id ==> i == j
    ensures UnreadAfterUpdate(CountUnread(s), row, None) == CountUnread(MergeById(s, row)) - 1
  {
    CountUnreadAfterMerge(s, row, j);
  }

  /** An UPDATE that turns a read notification back to unread is not counted
      up: the counter stays, one below the true number of unread notifications. */
  lemma ReadToUnreadFlipUndercounts(s: seq<Notification>, row: Notification, j: nat)
    requires j < |s| && s[j].id == row.id && s[j].isRead && !row.isRead
    requires forall i :: 0 <= i < |s| && s[i].id == row.id ==> i == j
    ensures UnreadAfterUpdate(CountUnread(s), row, Some(true)) == CountUnread(MergeById(s, row)) - 1
  {
    CountUnreadAfterMerge(s, row, j);
  }

  /** The write of `markAllAsRead` (none without a viewer) and of `markAsRead(id)`. */
  datatype ReadWrite = NoWrite | MarkAllRead(user: UserId) | MarkRead(id: string)

  function MarkAllAsRead(viewer: Option<UserId>): (w: ReadWrite)
    ensures w.NoWrite? <==> viewer.None?
    ensures w.MarkAllRead? ==> w.user == viewer.value
    ensures viewer.Some? ==> w == MarkAllRead(viewer.value)
  {
    if viewer.None? then NoWrite else MarkAllRead(viewer.value)
  }

  /** `markAsRead` has no viewer guard: it always issues the write. */
  function MarkAsRead(id: string): (w: ReadWrite)
    ensures w.MarkRead? && w.id == id
  {
    MarkRead(id)
  }
}
