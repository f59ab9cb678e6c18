/** The realtime message hook: the viewer's messages (optionally narrowed to one
    conversation partner), oldest first, seeded from one read and patched by
    INSERT (append) and UPDATE (merge by id) events. */
module Messages {
  import opened Common

  /** A `messages` row as the backend stores it. */
  datatype MessageRow = MessageRow(
    id: string,
    senderId: UserId,
    receiverId: UserId,
    content: string,
    messageType: MessageType,
    isRead: bool,
    createdAt: string)

  /** Display fields of the sender's profile. */
  datatype SenderInfo = SenderInfo(username: string, displayName: string)

  /** A message as the hook holds it: the row plus the sender's profile fields,
      which a change event's row image does not carry. */
  datatype Message = Message(row: MessageRow, sender: Option<SenderInfo>)

  /** The conversation scope, as the channel's filter text denotes it when read
      as a PostgREST expression: with a partner, the messages between the viewer
      and that partner in either direction; without one, every message the
      viewer sent or received. An empty partner id counts as no partner. */
  predicate InScope(me: UserId, partner: Option<UserId>, m: MessageRow)
    ensures InScope(me, partner, m) ==> m.senderId == me || m.receiverId == me
    ensures InScope(me, partner, m) && Truthy(partner) ==>
              m.senderId == partner.value || m.receiverId == partner.value
  {
    if Truthy(partner) then
      (m.senderId == me && m.receiverId == partner.value) ||
      (m.senderId == partner.value && m.receiverId == me)
    else
      m.senderId == me || m.receiverId == me
  }

  /** The seed read: the viewer's messages, narrowed by a second `or` filter
      when a partner is given, ordered by one column. */
  datatype MessageQuery = MessageQuery(me: UserId, partner: Option<UserId>, orderColumn: string, ascending: bool)

  /** The seed read of the mount effect: none without a viewer; otherwise the
      viewer's messages (with the partner filter only for a non-empty partner
      id), oldest first. */
  function SeedQuery(viewer: Option<UserId>, receiverId: Option<UserId>): (q: Option<MessageQuery>)
    ensures q.None? <==> viewer.None?
    ensures q.Some? ==> q.value.me == viewer.value && q.value.partner == receiverId
    ensures q.Some? ==> q.value.orderColumn == "created_at" && q.value.ascending
  {
    if viewer.None? then None else Some(MessageQuery(viewer.value, receiverId, "created_at", true))
  }

  /** The seed read's filters: the viewer's own messages, and with a partner a
      second `or` filter that the backend combines with the first by AND. */
  predicate SeedFilter(q: MessageQuery, m: MessageRow)
  {
    (m.senderId == q.me || m.receiverId == q.me) &&
    (Truthy(q.partner) ==>
       (m.senderId == q.me && m.receiverId == q.partner.value) ||
       (m.senderId == q.partner.value && m.receiverId == q.me))
  }

  /** The seed read selects the messages the channel's filter text denotes. */
  lemma SeedFilterIsScope(me: UserId, receiverId: Option<UserId>, m: MessageRow)
    ensures SeedFilter(SeedQuery(Some(me), receiverId).value, m) <==> InScope(me, receiverId, m)
  {
  }

  /** The conversation is the same seen from either side. */
  lemma ScopeIsSymmetric(me: UserId, partner: UserId, m: MessageRow)
    requires me != "" && partner != ""
    ensures InScope(me, Some(partner), m) <==> InScope(partner, Some(me), m)
  {
  }

  /** `{...msg, ...row}`: every column comes from the row, and the sender's
      profile fields stay. */
  function Merge(m: Message, row: MessageRow): (r: Message)
    ensures r.row == row && r.sender == m.sender
  {
    m.(row := row)
  }

  /** `prev.map(msg => msg.id === row.id ? {...msg, ...row} : msg)`. */
  function MergeById(s: seq<Message>, row: MessageRow): (r: seq<Message>)
    ensures |r| == |s|
    ensures forall i :: 0 <= i < |s| ==>
              r[i] == (if s[i].row.id == row.id then Merge(s[i], row) else s[i])
  {
    if s == [] then []
    else [if s[0].row.id == row.id then Merge(s[0], row) else s[0]] + MergeById(s[1..], row)
  }

  /** Merging keeps the ids in place, so the list keeps its order. */
  lemma MergeKeepsIds(s: seq<Message>, row: MessageRow)
    ensures forall i :: 0 <= i < |s| ==> MergeById(s, row)[i].row.id == s[i].row.id
  {
  }

  /** A change event the subscription delivers, with the sender's profile
      fields already fetched for an INSERT. */
  datatype MessageEvent = Inserted(row: MessageRow, sender: Option<SenderInfo>) | Updated(row: MessageRow)

  /** One event: an INSERT appends, an UPDATE merges by id. */
  function AfterEvent(s: seq<Message>, e: MessageEvent): seq<Message>
  {
    match e
    case Inserted(row, sender) => s + [Message(row, sender)]
    case Updated(row) => MergeById(s, row)
  }

  /** The list after replaying events in the order they arrive. */
  function AfterEvents(s: seq<Message>, evs: seq<MessageEvent>): seq<Message>
    decreases |evs|
  {
    if evs == [] then s else AfterEvents(AfterEvent(s, evs[0]), evs[1..])
  }

  function InsertCount(evs: seq<MessageEvent>): nat
  {
    if evs == [] then 0 else (if evs[0].Inserted? then 1 else 0) + InsertCount(evs[1..])
  }

  /** Replaying events never drops or moves a message: each INSERT adds one at
      the end, and every message already held keeps its position and id. */
  lemma {:induction false} AfterEventsKeepsPositions(s: seq<Message>, evs: seq<MessageEvent>)
    ensures |AfterEvents(s, evs)| == |s| + InsertCount(evs)
    ensures forall i :: 0 <= i < |s| ==> AfterEvents(s, evs)[i].row.id == s[i].row.id
    decreases |evs|
  {
    if evs != [] {
      var s1 := AfterEvent(s, evs[0]);
      if evs[0].Updated? {
        MergeKeepsIds(s, evs[0].row);
      }
      assert |s1| == |s| + (if evs[0].Inserted? then 1 else 0);
      assert forall i :: 0 <= i < |s| ==> s1[i].row.id == s[i].row.id;
      AfterEventsKeepsPositions(s1, evs[1..]);
    }
  }

  /** State of `useRealtimeMessages(receiverId)`. */
  class MessagesHook {
    const viewer: Option<UserId>
    const partner: Option<UserId>
    var messages: seq<Message>
    var isLoading: bool
    /** Whether the mount effect ran: the fetch was issued and the channel opened. */
    var subscribed: bool

    constructor (viewer: Option<UserId>, partner: Option<UserId>)
      ensures this.viewer == viewer && this.partner == partner
      ensures messages == [] && isLoading && !subscribed
    {
      this.viewer := viewer;
      this.partner := partner;
      messages := [];
      isLoading := true;
      subscribed := false;
    }

    /** The mount effect; `fetched` is the result of `SeedQuery(viewer, partner)`,
        oldest first (`Err` when it failed). Without a viewer nothing happens and loading never ends. */
    method Mount(fetched: Result<seq<Message>>)
      modifies this
      ensures viewer.None? ==> messages == old(messages) && isLoading == old(isLoading)
                               && subscribed == old(subscribed)
      ensures viewer.Some? ==> subscribed && !isLoading
      ensures viewer.Some? && fetched.Ok? ==> messages == fetched.value
      ensures fetched.Err? ==> messages == old(messages)
    {
      if viewer.None? {
        return;
      }
      if fetched.Ok? {
        messages := fetched.value;
      }
      isLoading := false;
      subscribed := true;
    }

    /** INSERT: the new row, with its sender's profile fields, goes last; the
        list is not checked for a message with the same id. */
    method ApplyInsert(row: MessageRow, sender: Option<SenderInfo>)
      requires subscribed
      modifies this`messages
      ensures messages == old(messages) + [Message(row, sender)]
      ensures messages == AfterEvent(old(messages), Inserted(row, sender))
    {
      messages := messages + [Message(row, sender)];
    }

    /** UPDATE: merges the row into the message with its id. */
    method ApplyUpdate(row: MessageRow)
      requires subscribed
      modifies this`messages
      ensures messages == MergeById(old(messages), row)
      ensures messages == AfterEvent(old(messages), Updated(row))
      ensures |messages| == |old(messages)|
    {
      messages := MergeById(messages, row);
    }
  }

  /** The row `sendMessage` inserts. */
  datatype MessageInsert = MessageInsert(senderId: UserId, receiverId: UserId, content: string, messageType: MessageType)

  /** `sendMessage(content, messageType = 'dm', receiverId)`: nothing without a
      viewer; otherwise the viewer is the sender, and an absent type is a DM. */
  function SendMessageRow(viewer: Option<UserId>, content: string, messageType: Option<MessageType>, receiverId: UserId): (r: Option<MessageInsert>)
    ensures r.None? <==> viewer.None?
    ensures r.Some? ==> r.value.senderId == viewer.value && r.value.receiverId == receiverId
                        && r.value.content == content
    ensures r.Some? ==> r.value.messageType == (if messageType.Some? then messageType.value else Dm)
  {
    if viewer.None? then None
    else Some(MessageInsert(viewer.value, receiverId, content,
                            if messageType.None? then Dm else messageType.value))
  }

  /** A message the viewer sends to the partner lies in that conversation. */
  lemma SentMessageInScope(me: UserId, partner: UserId, content: string, t: Option<MessageType>, row: MessageRow)
    requires partner != ""
    requires var ins := SendMessageRow(Some(me), content, t, partner).value;
             row.senderId == ins.senderId && row.receiverId == ins.receiverId
    ensures InScope(me, Some(partner), row)
  {
  }
}
