/** The post data hooks: the filtered, ordered post query, the create-post
    mutation and the reaction mutation that reads the viewer's row first. */
module Posts {
  import opened Common
  import opened ReactionTable

  datatype Post = Post(
    id: string,
    title: string,
    content: string,
    boardType: BoardType,
    university: Option<string>,
    department: Option<string>,
    likesCount: Option<int>,
    dislikesCount: Option<int>,
    commentsCount: Option<int>,
    isAnonymous: bool,
    createdAt: string,
    authorId: string)

  /** The column the query orders by, and its direction. */
  datatype Order = Order(column: string, ascending: bool)

  /** The `posts` select as built by `usePosts`: optional equality filters on
      `board_type`, `university` and `department`, and an ordering. */
  datatype PostQuery = PostQuery(
    board: Option<BoardType>,
    university: Option<string>,
    department: Option<string>,
    order: Order)

  /** A post passes a query when it satisfies every filter the query carries. */
  predicate Matches(q: PostQuery, p: Post)
  {
    (q.board.Some? ==> p.boardType == q.board.value) &&
    (q.university.Some? ==> p.university == q.university) &&
    (q.department.Some? ==> p.department == q.department)
  }

  /** The query `usePosts(boardType, university, department)` sends: a board
      filter only for one of the three enum names, a university or department
      filter only for a non-empty argument, newest post first. */
  function QueryFor(boardType: Option<string>, university: Option<string>, department: Option<string>): (q: PostQuery)
    ensures q.order == Order("created_at", false)
    ensures q.board.Some? <==> Truthy(boardType) && ParseBoardType(boardType.value).Some?
    ensures q.board.Some? ==> BoardTypeName(q.board.value) == boardType.value
    ensures q.university.Some? <==> Truthy(university)
    ensures q.university.Some? ==> q.university == university
    ensures q.department.Some? <==> Truthy(department)
    ensures q.department.Some? ==> q.department == department
  {
    PostQuery(
      if Truthy(boardType) then ParseBoardType(boardType.value) else None,
      if Truthy(university) then university else None,
      if Truthy(department) then department else None,
      Order("created_at", false))
  }

  /** The query builder as the hook runs it: `query` is reassigned filter by filter. */
  method BuildPostQuery(boardType: Option<string>, university: Option<string>, department: Option<string>)
    returns (q: PostQuery)
    ensures q == QueryFor(boardType, university, department)
  {
    q := PostQuery(None, None, None, Order("created_at", false));
    if Truthy(boardType) && ParseBoardType(boardType.value).Some? {
      q := q.(board := ParseBoardType(boardType.value));
    }
    if Truthy(university) {
      q := q.(university := university);
    }
    if Truthy(department) {
      q := q.(department := department);
    }
  }

  /** A board name outside the enum (such as "popular") adds no board filter. */
  lemma UnknownBoardAddsNoFilter(boardType: string, university: Option<string>, department: Option<string>)
    requires boardType !in {"international", "campus", "department"}
    ensures QueryFor(Some(boardType), university, department).board.None?
  {
  }

  /** The posts `usePosts(boardType, university, department)` selects: those
      whose board is named `boardType` when that is an enum name, and whose
      university and department equal the arguments that are non-empty; an
      argument that is absent, empty or unknown selects everything. */
  lemma QuerySelects(boardType: Option<string>, university: Option<string>, department: Option<string>, p: Post)
    ensures Matches(QueryFor(boardType, university, department), p) <==>
              (Truthy(boardType) && ParseBoardType(boardType.value).Some? ==> BoardTypeName(p.boardType) == boardType.value) &&
              (Truthy(university) ==> p.university == university) &&
              (Truthy(department) ==> p.department == department)
  {
    var q := QueryFor(boardType, university, department);
    if q.board.Some? {
      BoardTypeNameRoundTrip(p.boardType);
      BoardTypeNameRoundTrip(q.board.value);
    }
  }

  /** The payload of `useCreatePost`; `authorId` stands for an `author_id` key a
      caller may have put into the object at run time. */
  datatype NewPost = NewPost(
    title: string,
    content: string,
    boardType: BoardType,
    university: Option<string>,
    department: Option<string>,
    isAnonymous: Option<bool>,
    authorId: Option<string>)

  /** The row `useCreatePost` inserts. */
  datatype PostInsert = PostInsert(
    title: string,
    content: string,
    boardType: BoardType,
    university: Option<string>,
    department: Option<string>,
    isAnonymous: Option<bool>,
    authorId: string)

  /** The insert of `useCreatePost`: refused without a viewer, and otherwise the
      payload with `author_id` forced to the viewer's id. */
  function CreatePostRow(viewer: Option<UserId>, data: NewPost): (r: Result<PostInsert>)
    ensures viewer.None? <==> r == Err(Unauthenticated)
    ensures r.Ok? ==> r.value.authorId == viewer.value
    ensures r.Ok? ==> r.value.title == data.title && r.value.content == data.content
                      && r.value.boardType == data.boardType && r.value.university == data.university
                      && r.value.department == data.department && r.value.isAnonymous == data.isAnonymous
  {
    if viewer.None? then Err(Unauthenticated)
    else Ok(PostInsert(data.title, data.content, data.boardType, data.university,
                       data.department, data.isAnonymous, viewer.value))
  }

  /** The three writes of the reaction mutation. */
  datatype Mutation = RemoveReaction | ChangeReaction(kind: ReactionKind) | AddReaction(kind: ReactionKind)

  /** `usePostReaction`: with the viewer's existing row in hand, the same kind is
      removed, another kind is changed to `k`, and no row means `k` is added. */
  function DecideMutation(viewer: Option<UserId>, existing: Option<ReactionKind>, k: ReactionKind): (r: Result<Mutation>)
    ensures viewer.None? <==> r == Err(Unauthenticated)
    ensures r.Ok? ==> (r.value == RemoveReaction <==> existing == Some(k))
    ensures r.Ok? ==> (r.value == ChangeReaction(k) <==> existing.Some? && existing != Some(k))
    ensures r.Ok? ==> (r.value == AddReaction(k) <==> existing.None?)
  {
    if viewer.None? then Err(Unauthenticated)
    else if existing.Some? then
      if existing.value == k then Ok(RemoveReaction) else Ok(ChangeReaction(k))
    else Ok(AddReaction(k))
  }

  /** The table after the backend executes the mutation for (post, user). */
  function ApplyMutation(t: Table, post: PostId, user: UserId, m: Mutation): Table
  {
    match m
    case RemoveReaction => t - {Key(post, user)}
    case ChangeReaction(k) => if Key(post, user) in t then t[Key(post, user) := k] else t
    case AddReaction(k) => t[Key(post, user) := k]
  }

  /** One reaction mutation by a signed-in user: reads the pair's row, then
      writes. The pair ends on `Toggled(existing, k)` and no other pair changes. */
  function ReactOnce(t: Table, post: PostId, user: UserId, k: ReactionKind): Table
  {
    ApplyMutation(t, post, user, DecideMutation(Some(user), ReactionOf(t, post, user), k).value)
  }

  lemma ReactOnceToggles(t: Table, post: PostId, user: UserId, k: ReactionKind)
    ensures ReactionOf(ReactOnce(t, post, user, k), post, user) == Toggled(ReactionOf(t, post, user), k)
    ensures forall key :: key != Key(post, user) ==>
              (key in ReactOnce(t, post, user, k) <==> key in t) &&
              (key in t ==> ReactOnce(t, post, user, k)[key] == t[key])
  {
  }

  /** A sequence of reaction mutations by one user on one post. */
  function ReactAll(t: Table, post: PostId, user: UserId, ks: seq<ReactionKind>): Table
    decreases |ks|
  {
    if ks == [] then t else ReactAll(ReactOnce(t, post, user, ks[0]), post, user, ks[1..])
  }

  /** After any sequence of mutations the pair holds exactly the reference
      selection `ToggledAll`, and every other pair is as it was. */
  lemma {:induction false} ReactAllToggles(t: Table, post: PostId, user: UserId, ks: seq<ReactionKind>)
    ensures ReactionOf(ReactAll(t, post, user, ks), post, user) == ToggledAll(ReactionOf(t, post, user), ks)
    ensures forall key :: key != Key(post, user) ==>
              (key in ReactAll(t, post, user, ks) <==> key in t) &&
              (key in t ==> ReactAll(t, post, user, ks)[key] == t[key])
    decreases |ks|
  {
    if ks != [] {
      ReactOnceToggles(t, post, user, ks[0]);
      ReactAllToggles(ReactOnce(t, post, user, ks[0]), post, user, ks[1..]);
    }
  }

  /** Reacting with the same kind twice from no row ends with no row. */
  lemma SameKindTwiceLeavesNoRow(t: Table, post: PostId, user: UserId, k: ReactionKind)
    requires ReactionOf(t, post, user) == None
    ensures ReactionOf(ReactAll(t, post, user, [k, k]), post, user) == None
  {
    ReactAllToggles(t, post, user, [k, k]);
    ToggleTwiceClears(k);
  }
}
