/** The boards page: the active tab and the viewer's profile decide the
    arguments of the post query; the popular tab re-orders the fetched posts
    by likes; the title follows the tab. */
module Boards {
  import opened Common
  import opened Posts
  import opened Profiles

  /** The three optional arguments the page passes to the post query. */
  datatype Filters = Filters(boardType: Option<string>, university: Option<string>, department: Option<string>)

  /** The filters of a tab. 'all' and 'popular' filter nothing; 'campus' and
      'department' need the profile (without one they filter nothing); the
      department board never filters by university. */
  function FiltersFor(activeBoard: string, profile: Option<Profile>): (f: Filters)
    ensures activeBoard == "all" ==> f == Filters(None, None, None)
    ensures activeBoard == "campus" && profile.Some? ==>
              f == Filters(Some("campus"), Some(profile.value.university), None)
    ensures activeBoard == "department" && profile.Some? ==>
              f == Filters(Some("department"), None, Some(profile.value.department))
    ensures activeBoard == "international" ==> f == Filters(Some("international"), None, None)
    ensures activeBoard == "popular" ==> f == Filters(None, None, None)
    ensures activeBoard !in {"campus", "department", "international"} ==> f == Filters(None, None, None)
    ensures profile.None? && activeBoard != "international" ==> f == Filters(None, None, None)
  {
    if activeBoard == "campus" && profile.Some? then Filters(Some("campus"), Some(profile.value.university), None)
    else if activeBoard == "department" && profile.Some? then Filters(Some("department"), None, Some(profile.value.department))
    else if activeBoard == "international" then Filters(Some("international"), None, None)
    else Filters(None, None, None)
  }

  /** The page body: three `let` variables assigned through an if-chain. */
  method DeriveFilters(activeBoard: string, profile: Option<Profile>)
    returns (boardType: Option<string>, university: Option<string>, department: Option<string>)
    ensures Filters(boardType, university, department) == FiltersFor(activeBoard, profile)
  {
    boardType, university, department := None, None, None;
    if activeBoard != "all" {
      if activeBoard == "campus" && profile.Some? {
        boardType := Some("campus");
        university := Some(profile.value.university);
      } else if activeBoard == "department" && profile.Some? {
        boardType := Some("department");
        department := Some(profile.value.department);
        university := None;
      } else if activeBoard == "international" {
        boardType := Some("international");
      } else if activeBoard == "popular" {
        boardType := None;
      }
    }
  }

  /** The query a tab sends. */
  function TabQuery(activeBoard: string, profile: Option<Profile>): PostQuery
  {
    var f := FiltersFor(activeBoard, profile);
    QueryFor(f.boardType, f.university, f.department)
  }

  /** 'all' and 'popular' fetch every post. */
  lemma UnscopedTabsMatchEverything(activeBoard: string, profile: Option<Profile>, p: Post)
    requires activeBoard == "all" || activeBoard == "popular"
    ensures Matches(TabQuery(activeBoard, profile), p)
  {
  }

  /** The campus tab fetches exactly the campus posts of the viewer's university
      (every campus post when the profile's university is empty). */
  lemma CampusTabScope(profile: Profile, p: Post)
    ensures Matches(TabQuery("campus", Some(profile)), p) <==>
            p.boardType == Campus && (profile.university != "" ==> p.university == Some(profile.university))
  {
  }

  /** The department tab fetches the department posts of the viewer's department
      at any university. */
  lemma DepartmentTabScope(profile: Profile, p: Post)
    ensures Matches(TabQuery("department", Some(profile)), p) <==>
            p.boardType == Department && (profile.department != "" ==> p.department == Some(profile.department))
  {
  }

  /** `getBoardTitle`; only reached once a profile is loaded. */
  function BoardTitle(board: string, profile: Profile): (t: string)
    ensures board == "international" ==> t == "국제 게시판"
    ensures board == "campus" ==> t == "교내 게시판 (" + profile.university + ")"
    ensures board == "department" ==> t == "과별 게시판 (" + profile.department + ")"
    ensures board == "popular" ==> t == "인기글"
    ensures board !in {"international", "campus", "department", "popular"} ==> t == "전체 게시판"
  {
    if board == "international" then "국제 게시판"
    else if board == "campus" then "교내 게시판 (" + profile.university + ")"
    else if board == "department" then "과별 게시판 (" + profile.department + ")"
    else if board == "popular" then "인기글"
    else "전체 게시판"
  }

  /** The sort key: `likes_count || 0`. */
  function Likes(p: Post): int
  {
    OrZero(p.likesCount)
  }

  predicate SortedByLikes(s: seq<Post>)
  {
    forall i, j :: 0 <= i < j < |s| ==> Likes(s[i]) >= Likes(s[j])
  }

  /** Places `p` into a list sorted by likes, before the first post with no more likes. */
  function InsertByLikes(p: Post, s: seq<Post>): (r: seq<Post>)
    requires SortedByLikes(s)
    ensures SortedByLikes(r)
    ensures multiset(r) == multiset(s) + multiset{p}
    ensures |r| == |s| + 1
    ensures r[0] == p || (s != [] && r[0] == s[0])
  {
    if s == [] || Likes(p) >= Likes(s[0]) then
      SortedCons(p, s);
      [p] + s
    else
      var rest := InsertByLikes(p, s[1..]);
      assert s == [s[0]] + s[1..];
      SortedCons(s[0], rest);
      [s[0]] + rest
  }

  /** A post with at least the likes of a sorted list's head can go in front. */
  lemma SortedCons(p: Post, s: seq<Post>)
    requires SortedByLikes(s)
    requires s != [] ==> Likes(p) >= Likes(s[0])
    ensures SortedByLikes([p] + s)
  {
    var r := [p] + s;
    forall i, j | 0 <= i < j < |r| ensures Likes(r[i]) >= Likes(r[j]) {
      if i == 0 {
        assert r[j] == s[j - 1];
        assert Likes(s[0]) >= Likes(s[j - 1]) || j - 1 == 0;
      } else {
        assert r[i] == s[i - 1] && r[j] == s[j - 1];
      }
    }
  }

  /** `[...posts].sort((a, b) => likes(b) - likes(a))`: a new list, most liked first. */
  function SortByLikes(s: seq<Post>): (r: seq<Post>)
    ensures SortedByLikes(r)
    ensures multiset(r) == multiset(s)
    ensures |r| == |s|
  {
    if s == [] then []
    else
      assert s == [s[0]] + s[1..];
      InsertByLikes(s[0], SortByLikes(s[1..]))
  }

  /** The list the page shows: a sorted copy on the popular tab, the fetched
      list itself on every other tab. */
  function DisplayedPosts(activeBoard: string, posts: Option<seq<Post>>): (r: Option<seq<Post>>)
    ensures r.None? <==> posts.None?
    ensures activeBoard != "popular" ==> r == posts
    ensures activeBoard == "popular" && r.Some? ==>
              SortedByLikes(r.value) && multiset(r.value) == multiset(posts.value)
  {
    if activeBoard == "popular" && posts.Some? then Some(SortByLikes(posts.value)) else posts
  }

  /** The header count ("총 N개의 게시글") equals the number of fetched posts. */
  lemma DisplayedCountIsFetchedCount(activeBoard: string, posts: seq<Post>)
    ensures |DisplayedPosts(activeBoard, Some(posts)).value| == |posts|
  {
    var r := DisplayedPosts(activeBoard, Some(posts)).value;
    assert |r| == |multiset(r)| == |multiset(posts)| == |posts|;
  }
}
