/** The realtime reaction hook of one post: two counters and the viewer's own
    reaction, seeded from one read and then patched by change events on the
    `posts` row and on the post's `post_reactions` rows. Toggling only issues
    a write; the local state changes when the resulting event arrives. */
module PostReactions {
  import opened Common
  import opened ReactionTable
  import Posts

  /** The `likes_count` / `dislikes_count` columns of a `posts` row (nullable). */
  datatype PostCounts = PostCounts(likes: Option<int>, dislikes: Option<int>)

  datatype ReactionRow = ReactionRow(post: PostId, user: UserId, kind: ReactionKind)

  datatype ChangeKind = Insert | Update | Delete

  /** A change event on `post_reactions`. `newRow` is the new row image; a
      DELETE event carries an empty new image, which holds no `user_id`. */
  datatype ReactionEvent = ReactionEvent(change: ChangeKind, newRow: Option<ReactionRow>)

  /** The write a toggle issues against `post_reactions`. */
  datatype Write = NoWrite | DeleteRow(post: PostId, user: UserId) | UpsertRow(row: ReactionRow)

  /** Whether an event is about the viewer's own reaction row. */
  predicate OwnedBy(viewer: Option<UserId>, ev: ReactionEvent)
  {
    viewer.Some? && ev.newRow.Some? && ev.newRow.value.user == viewer.value
  }

  /** The viewer's reaction after a `post_reactions` event: only an event whose
      new row belongs to the viewer is taken, and then its kind becomes the
      viewer's reaction; every other event leaves the reaction as it was. */
  function ReactionAfterEvent(viewer: Option<UserId>, current: Option<ReactionKind>, ev: ReactionEvent): (r: Option<ReactionKind>)
    ensures !OwnedBy(viewer, ev) ==> r == current
    ensures OwnedBy(viewer, ev) ==> r == Some(ev.newRow.value.kind)
  {
    if OwnedBy(viewer, ev) then Some(ev.newRow.value.kind) else current
  }

  /** The decision of `toggleReaction(k)`: no write without a viewer, a delete of
      the viewer's row when `k` is the reaction the hook shows, an upsert of
      `k` otherwise. */
  function ToggleWrite(viewer: Option<UserId>, post: PostId, current: Option<ReactionKind>, k: ReactionKind): (w: Write)
    ensures w.NoWrite? <==> viewer.None?
    ensures w.DeleteRow? <==> viewer.Some? && current == Some(k)
    ensures w.DeleteRow? ==> w == DeleteRow(post, viewer.value)
    ensures w.UpsertRow? <==> viewer.Some? && current != Some(k)
    ensures w.UpsertRow? ==> w.row == ReactionRow(post, viewer.value, k)
  {
    if viewer.None? then NoWrite
    else if current == Some(k) then DeleteRow(post, viewer.value)
    else UpsertRow(ReactionRow(post, viewer.value, k))
  }

  /** The table after the backend executes a write: an upsert sets the pair's
      kind, a delete removes the pair, and no other pair changes. */
  function ApplyWrite(t: Table, w: Write): (t': Table)
    ensures w.NoWrite? ==> t' == t
    ensures w.UpsertRow? ==> ReactionOf(t', w.row.post, w.row.user) == Some(w.row.kind)
    ensures w.DeleteRow? ==> ReactionOf(t', w.post, w.user) == None
    ensures forall key :: (w.UpsertRow? ==> key != Key(w.row.post, w.row.user))
                          && (w.DeleteRow? ==> key != Key(w.post, w.user))
                          ==> (key in t' <==> key in t) && (key in t ==> t'[key] == t[key])
  {
    match w
    case NoWrite => t
    case UpsertRow(row) => t[Key(row.post, row.user) := row.kind]
    case DeleteRow(post, user) => t - {Key(post, user)}
  }

  /** The event the post's reaction channel delivers for a write: an upsert is an
      INSERT or an UPDATE carrying the row, a delete of an existing row is a
      DELETE with an empty new image, and a write that changes nothing is silent. */
  function EventOf(t: Table, w: Write): (ev: Option<ReactionEvent>)
    ensures w.UpsertRow? ==> ev.Some? && ev.value.newRow == Some(w.row)
    ensures w.UpsertRow? ==> ev.value.change != Delete
    ensures w.UpsertRow? ==> (ev.value.change == Insert <==> Key(w.row.post, w.row.user) !in t)
    ensures w.DeleteRow? ==> (ev.Some? <==> Key(w.post, w.user) in t)
    ensures w.DeleteRow? && ev.Some? ==> ev.value == ReactionEvent(Delete, None)
    ensures w.NoWrite? ==> ev.None?
  {
    match w
    case NoWrite => None
    case UpsertRow(row) =>
      Some(ReactionEvent(if Key(row.post, row.user) in t then Update else Insert, Some(row)))
    case DeleteRow(post, user) =>
      if Key(post, user) in t then Some(ReactionEvent(Delete, None)) else None
  }

  /** The hook's view is in step with the backend for this viewer. */
  predicate InStep(t: Table, post: PostId, viewer: UserId, current: Option<ReactionKind>)
  {
    current == ReactionOf(t, post, viewer)
  }

  /** Toggling a kind the viewer does not hold: the write and its echoed event
      bring the table and the hook to `Toggled(current, k)`, and the two stay in step. */
  lemma UpsertRoundTrip(t: Table, post: PostId, viewer: UserId, current: Option<ReactionKind>, k: ReactionKind)
    requires InStep(t, post, viewer, current)
    requires current != Some(k)
    ensures var w := ToggleWrite(Some(viewer), post, current, k);
            var t' := ApplyWrite(t, w);
            var ev := EventOf(t, w);
            ev.Some? &&
            ReactionOf(t', post, viewer) == Toggled(current, k) == Some(k) &&
            ReactionAfterEvent(Some(viewer), current, ev.value) == Some(k) &&
            InStep(t', post, viewer, ReactionAfterEvent(Some(viewer), current, ev.value))
  {
  }

  /** Toggling the kind the viewer holds deletes the row, but the DELETE event
      carries no user, so the hook keeps showing the deleted kind: the table
      holds `Toggled(current, k) == None` and the hook still holds `Some(k)`. */
  lemma DeleteLeavesViewBehind(t: Table, post: PostId, viewer: UserId, k: ReactionKind)
    requires InStep(t, post, viewer, Some(k))
    ensures var w := ToggleWrite(Some(viewer), post, Some(k), k);
            var t' := ApplyWrite(t, w);
            var ev := EventOf(t, w);
            ev.Some? &&
            ReactionOf(t', post, viewer) == Toggled(Some(k), k) == None &&
            ReactionAfterEvent(Some(viewer), Some(k), ev.value) == Some(k) &&
            !InStep(t', post, viewer, ReactionAfterEvent(Some(viewer), Some(k), ev.value))
  {
  }

  /** Consequence for a third toggle: after like, like the hook still shows like,
      so a further like issues a delete of a row that no longer exists, which
      changes nothing and echoes nothing. */
  lemma RepeatedToggleAfterDeleteIsSilent(t: Table, post: PostId, viewer: UserId, k: ReactionKind)
    requires ReactionOf(t, post, viewer) == None
    ensures var w := ToggleWrite(Some(viewer), post, Some(k), k);
            w == DeleteRow(post, viewer) && ApplyWrite(t, w) == t && EventOf(t, w).None?
  {
    assert Key(post, viewer) !in t;
    assert t - {Key(post, viewer)} == t;
  }

  /** While the hook shows what the backend holds, its toggle and the reaction
      mutation of the post hooks leave the table in the same state. */
  lemma AgreesWithReactionMutation(t: Table, post: PostId, viewer: UserId, current: Option<ReactionKind>, k: ReactionKind)
    requires InStep(t, post, viewer, current)
    ensures ApplyWrite(t, ToggleWrite(Some(viewer), post, current, k)) == Posts.ReactOnce(t, post, viewer, k)
  {
  }

  /** Events about another user's row never move the viewer's reaction, whatever
      sequence of them arrives. */
  function ReactionAfterEvents(viewer: Option<UserId>, current: Option<ReactionKind>, evs: seq<ReactionEvent>): Option<ReactionKind>
    decreases |evs|
  {
    if evs == [] then current
    else ReactionAfterEvents(viewer, ReactionAfterEvent(viewer, current, evs[0]), evs[1..])
  }

  lemma {:induction false} ForeignEventsIgnored(viewer: Option<UserId>, current: Option<ReactionKind>, evs: seq<ReactionEvent>)
    requires forall i :: 0 <= i < |evs| ==> !OwnedBy(viewer, evs[i])
    ensures ReactionAfterEvents(viewer, current, evs) == current
    decreases |evs|
  {
    if evs != [] {
      assert !OwnedBy(viewer, evs[0]);
      ForeignEventsIgnored(viewer, current, evs[1..]);
    }
  }

  /** The hook state of `useRealtimePostReactions(postId)` for one signed-in
      (or signed-out) viewer. */
  class PostReactionsHook {
    const postId: PostId
    const viewer: Option<UserId>
    var likesCount: int
    var dislikesCount: int
    var userReaction: Option<ReactionKind>
    /** Whether the mount effect ran: the fetch was issued and both channels opened. */
    var subscribed: bool

    constructor (postId: PostId, viewer: Option<UserId>)
      ensures this.postId == postId && this.viewer == viewer
      ensures likesCount == 0 && dislikesCount == 0 && userReaction == None
      ensures !subscribed
    {
      this.postId := postId;
      this.viewer := viewer;
      likesCount, dislikesCount := 0, 0;
      userReaction := None;
      subscribed := false;
    }

    /** The mount effect. `post` is the result of reading the post's counters
        (None when no row came back) and `ownRow` the kind of the viewer's
        reaction row (None when there is none). An empty post id does nothing. */
    method Mount(post: Option<PostCounts>, ownRow: Option<ReactionKind>)
      modifies this
      ensures postId == "" ==> likesCount == old(likesCount) && dislikesCount == old(dislikesCount)
                               && userReaction == old(userReaction) && subscribed == old(subscribed)
      ensures postId != "" ==> subscribed
      ensures postId != "" && post.Some? ==> likesCount == OrZero(post.value.likes) && dislikesCount == OrZero(post.value.dislikes)
      ensures post.None? ==> likesCount == old(likesCount) && dislikesCount == old(dislikesCount)
      ensures postId != "" && viewer.Some? && ownRow.Some? ==> userReaction == ownRow
      ensures viewer.None? || ownRow.None? ==> userReaction == old(userReaction)
    {
      if postId == "" {
        return;
      }
      if post.Some? {
        likesCount := OrZero(post.value.likes);
        dislikesCount := OrZero(post.value.dislikes);
      }
      if viewer.Some? && ownRow.Some? {
        userReaction := ownRow;
      }
      subscribed := true;
    }

    /** An UPDATE event on the post row: the authoritative counters replace the
        local ones, whatever they were. */
    method ApplyPostUpdate(newRow: PostCounts)
      requires subscribed
      modifies this`likesCount, this`dislikesCount
      ensures likesCount == OrZero(newRow.likes) && dislikesCount == OrZero(newRow.dislikes)
    {
      likesCount := OrZero(newRow.likes);
      dislikesCount := OrZero(newRow.dislikes);
    }

    /** Any event on the post's reaction rows. */
    method ApplyReactionEvent(ev: ReactionEvent)
      requires subscribed
      modifies this`userReaction
      ensures userReaction == ReactionAfterEvent(viewer, old(userReaction), ev)
      ensures !OwnedBy(viewer, ev) ==> userReaction == old(userReaction)
    {
      if viewer.Some? && ev.newRow.Some? && ev.newRow.value.user == viewer.value {
        userReaction := Some(ev.newRow.value.kind);
      }
    }

    /** `toggleReaction(k)`: decides the write from the reaction the hook shows
        and changes no local state (the method may modify nothing). */
    method ToggleReaction(k: ReactionKind) returns (w: Write)
      ensures w == ToggleWrite(viewer, postId, userReaction, k)
      ensures w.NoWrite? <==> viewer.None?
    {
      if viewer.None? {
        return NoWrite;
      }
      if userReaction == Some(k) {
        w := DeleteRow(postId, viewer.value);
      } else {
        w := UpsertRow(ReactionRow(postId, viewer.value, k));
      }
    }
  }

  /** A viewer switching from like to dislike on a post with no reaction of
      theirs, followed by an authoritative counter update: the hook ends on
      dislike with exactly the counters the update carried. */
  method SwitchScenario(postId: PostId, viewer: UserId, t: Table) returns (h: PostReactionsHook, t': Table)
    requires postId != ""
    requires ReactionOf(t, postId, viewer) == None
    ensures h.userReaction == Some(Dislike) && ReactionOf(t', postId, viewer) == Some(Dislike)
    ensures h.likesCount == 5 && h.dislikesCount == 3
  {
    h := new PostReactionsHook(postId, Some(viewer));
    h.Mount(Some(PostCounts(Some(7), None)), None);
    var w1 := h.ToggleReaction(Like);
    var ev1 := EventOf(t, w1);
    t' := ApplyWrite(t, w1);
    h.ApplyReactionEvent(ev1.value);
    var w2 := h.ToggleReaction(Dislike);
    var ev2 := EventOf(t', w2);
    t' := ApplyWrite(t', w2);
    h.ApplyReactionEvent(ev2.value);
    h.ApplyPostUpdate(PostCounts(Some(5), Some(3)));
  }
}
