/** The realtime comment hook of one post: the post's comments, oldest first,
    seeded from one read and extended by INSERT events. There is no UPDATE or
    DELETE handler, so after the seed the list only grows. */
module Comments {
  import opened Common

  /** A `comments` row as the backend stores it. */
  datatype CommentRow = CommentRow(
    id: string,
    postId: string,
    authorId: UserId,
    content: string,
    isAnonymous: bool,
    createdAt: string)

  /** Display fields of the author's profile. */
  datatype AuthorInfo = AuthorInfo(username: string, displayName: string)

  /** A comment as the hook holds it: the row plus the author's profile fields. */
  datatype Comment = Comment(row: CommentRow, author: Option<AuthorInfo>)

  /** The seed read: the rows whose `post_id` is the post, by `created_at` ascending. */
  datatype CommentQuery = CommentQuery(postId: string, orderColumn: string, ascending: bool)

  /** The read the mount effect issues: none for an empty post id. */
  function SeedQuery(postId: string): (q: Option<CommentQuery>)
    ensures q.None? <==> postId == ""
    ensures q.Some? ==> q.value.postId == postId && q.value.orderColumn == "created_at" && q.value.ascending
  {
    if postId == "" then None else Some(CommentQuery(postId, "created_at", true))
  }

  /** A row an INSERT event delivers, with the author's fields read for it. */
  datatype InsertEvent = InsertEvent(row: CommentRow, author: Option<AuthorInfo>)

  /** The list after a sequence of INSERT events, applied in order. */
  function AfterInserts(s: seq<Comment>, evs: seq<InsertEvent>): seq<Comment>
    decreases |evs|
  {
    if evs == [] then s else AfterInserts(s + [Comment(evs[0].row, evs[0].author)], evs[1..])
  }

  /** Events only append: the prior list is a prefix, each event adds exactly
      one comment, and the added comments are the events' rows in order. */
  lemma {:induction false} AfterInsertsAppends(s: seq<Comment>, evs: seq<InsertEvent>)
    ensures var r := AfterInserts(s, evs);
            |r| == |s| + |evs| && r[..|s|] == s &&
            forall i :: 0 <= i < |evs| ==> r[|s| + i] == Comment(evs[i].row, evs[i].author)
    decreases |evs|
  {
    if evs != [] {
      var s' := s + [Comment(evs[0].row, evs[0].author)];
      AfterInsertsAppends(s', evs[1..]);
      var r := AfterInserts(s, evs);
      assert r == AfterInserts(s', evs[1..]);
      assert r[..|s|] == r[..|s'|][..|s|];
      forall i | 0 <= i < |evs|
        ensures r[|s| + i] == Comment(evs[i].row, evs[i].author)
      {
        if i > 0 {
          assert r[|s'| + (i - 1)] == Comment(evs[1..][i - 1].row, evs[1..][i - 1].author);
        }
      }
    }
  }

  /** State of `useRealtimeComments(postId)`. */
  class CommentsHook {
    const postId: string
    var comments: seq<Comment>
    var isLoading: bool
    /** Whether the mount effect ran: the fetch was issued and the channel opened. */
    var subscribed: bool

    constructor (postId: string)
      ensures this.postId == postId && comments == [] && isLoading && !subscribed
    {
      this.postId := postId;
      comments := [];
      isLoading := true;
      subscribed := false;
    }

    /** The mount effect; `fetched` is the result of `SeedQuery(postId)` (`Err`
        when it failed). An empty post id does nothing, and loading never ends. */
    method Mount(fetched: Result<seq<Comment>>)
      modifies this
      ensures postId == "" ==> comments == old(comments) && isLoading == old(isLoading)
                               && subscribed == old(subscribed)
      ensures postId != "" ==> subscribed && !isLoading
      ensures postId != "" && fetched.Ok? ==> comments == fetched.value
      ensures fetched.Err? ==> comments == old(comments)
    {
      if postId == "" {
        return;
      }
      if fetched.Ok? {
        comments := fetched.value;
      }
      isLoading := false;
      subscribed := true;
    }

    /** INSERT: the new comment goes last. */
    method ApplyInsert(ev: InsertEvent)
      requires subscribed
      modifies this`comments
      ensures comments == old(comments) + [Comment(ev.row, ev.author)]
    {
      comments := comments + [Comment(ev.row, ev.author)];
    }
  }

  /** The row `addComment` inserts. */
  datatype CommentInsert = CommentInsert(postId: string, authorId: UserId, content: string, isAnonymous: bool)

  /** `addComment(content, isAnonymous = true)`: nothing without a viewer;
      otherwise a row on the hook's post by the viewer, anonymous unless told otherwise. */
  function AddCommentRow(viewer: Option<UserId>, postId: string, content: string, isAnonymous: Option<bool>): (r: Option<CommentInsert>)
    ensures r.None? <==> viewer.None?
    ensures r.Some? ==> r.value.postId == postId && r.value.authorId == viewer.value && r.value.content == content
    ensures r.Some? ==> r.value.isAnonymous == (isAnonymous.None? || isAnonymous.value)
  {
    if viewer.None? then None
    else Some(CommentInsert(postId, viewer.value, content, if isAnonymous.None? then true else isAnonymous.value))
  }

  /** The row the backend stores for an insert, with the id and timestamp it assigns. */
  function StoredRow(ins: CommentInsert, id: string, createdAt: string): CommentRow
  {
    CommentRow(id, ins.postId, ins.authorId, ins.content, ins.isAnonymous, createdAt)
  }

  /** Posting a comment on a post whose list is empty, then receiving the
      echoed INSERT, leaves exactly that comment in the list. */
  lemma AddCommentRoundTrip(viewer: UserId, postId: string, content: string, isAnonymous: bool,
                            id: string, createdAt: string, author: Option<AuthorInfo>)
    ensures var ins := AddCommentRow(Some(viewer), postId, content, Some(isAnonymous)).value;
            var r := AfterInserts([], [InsertEvent(StoredRow(ins, id, createdAt), author)]);
            |r| == 1 && r[0].row.content == content && r[0].row.authorId == viewer
            && r[0].row.isAnonymous == isAnonymous && r[0].row.postId == postId
  {
    var ins := AddCommentRow(Some(viewer), postId, content, Some(isAnonymous)).value;
    AfterInsertsAppends([], [InsertEvent(StoredRow(ins, id, createdAt), author)]);
  }
}
