/** Shared vocabulary of the client: optional values, the closed enumerations
    of the backend schema, JavaScript truthiness of optional strings, and the
    two string primitives the pages rely on (`split(sep)[0]` and `parseInt`). */
module Common {

  datatype Option<+T> = None | Some(value: T)

  /** Failure of a mutation before it reaches the backend. */
  datatype Error = Unauthenticated

  datatype Result<+T> = Ok(value: T) | Err(error: Error)

  type UserId = string

  /** `board_type` enum of the schema. */
  datatype BoardType = International | Campus | Department

  /** `message_type` enum of the schema. */
  datatype MessageType = Dm | Anonymous

  /** Reaction kind of a `post_reactions` row. */
  datatype ReactionKind = Like | Dislike

  /** Wire spelling of a board type. */
  function BoardTypeName(b: BoardType): string
  {
    match b
    case International => "international"
    case Campus => "campus"
    case Department => "department"
  }

  /** The board type a string names, if it is one of the three enum values. */
  function ParseBoardType(s: string): (r: Option<BoardType>)
    ensures r.Some? ==> BoardTypeName(r.value) == s
    ensures r.None? ==> forall b: BoardType :: BoardTypeName(b) != s
  {
    if s == "international" then Some(International)
    else if s == "campus" then Some(Campus)
    else if s == "department" then Some(Department)
    else None
  }

  lemma BoardTypeNameRoundTrip(b: BoardType)
    ensures ParseBoardType(BoardTypeName(b)) == Some(b)
  {
  }

  /** JavaScript truthiness of an optional string: `undefined`, `null` and `""` are falsy. */
  predicate Truthy(s: Option<string>)
  {
    s.Some? && s.value != ""
  }

  /** `s || fallback` for an optional string. */
  function OrElse(s: Option<string>, fallback: string): (r: string)
    ensures Truthy(s) ==> r == s.value
    ensures !Truthy(s) ==> r == fallback
  {
    if Truthy(s) then s.value else fallback
  }

  /** `n || 0` for a nullable counter column: `null` reads as 0. */
  function OrZero(n: Option<int>): (r: int)
    ensures n.Some? ==> r == n.value
    ensures n.None? ==> r == 0
  {
    if n.Some? then n.value else 0
  }

  /** `s || undefined` for a form field: the empty string is sent as absent. */
  function EmptyAsAbsent(s: string): (r: Option<string>)
    ensures r.None? <==> s == ""
    ensures r.Some? ==> r.value == s
  {
    if s == "" then None else Some(s)
  }

  /** `s.split(sep)[0]`: the text before the first `sep`, or all of `s`. */
  function BeforeFirst(s: string, sep: char): (r: string)
    ensures r <= s
    ensures sep !in r
    ensures |r| < |s| ==> s[|r|] == sep
  {
    if s == [] then []
    else if s[0] == sep then []
    else [s[0]] + BeforeFirst(s[1..], sep)
  }

  lemma {:induction false} BeforeFirstOfJoin(head: string, sep: char, tail: string)
    requires sep !in head
    ensures BeforeFirst(head + [sep] + tail, sep) == head
  {
    if head != [] {
      assert (head + [sep] + tail)[1..] == head[1..] + [sep] + tail;
      BeforeFirstOfJoin(head[1..], sep, tail);
    }
  }

  predicate IsDigit(c: char)
  {
    '0' <= c <= '9'
  }

  function DigitValue(c: char): (d: nat)
    requires IsDigit(c)
    ensures d < 10
  {
    (c as int) - ('0' as int)
  }

  /** Length of the longest prefix of `s` made of decimal digits. */
  function DigitRun(s: string): (n: nat)
    ensures n <= |s|
    ensures forall i :: 0 <= i < n ==> IsDigit(s[i])
    ensures n < |s| ==> !IsDigit(s[n])
  {
    if s == [] || !IsDigit(s[0]) then 0 else 1 + DigitRun(s[1..])
  }

  /** Value of a string of decimal digits, most significant first. */
  function DigitsValue(s: string): nat
    requires forall i :: 0 <= i < |s| ==> IsDigit(s[i])
  {
    if s == [] then 0 else DigitsValue(s[..|s| - 1]) * 10 + DigitValue(s[|s| - 1])
  }

  /** JavaScript `parseInt(s)` with the default radix: an optional sign followed by
      the longest run of decimal digits; `None` stands for `NaN` (no digit). */
  function ParseInt(s: string): (r: Option<int>)
    ensures r.Some? ==> exists k :: 0 <= k < |s| && IsDigit(s[k])
    ensures (|s| > 0 && IsDigit(s[0])) ==> r.Some? && r.value >= 0
  {
    var neg := |s| > 0 && s[0] == '-';
    var start := if |s| > 0 && (s[0] == '-' || s[0] == '+') then 1 else 0;
    var body := s[start..];
    var n := DigitRun(body);
    if n == 0 then None
    else
      assert IsDigit(s[start]);
      var v: int := DigitsValue(body[..n]);
      Some(if neg then -v else v)
  }

  /** The value `parseInt` gives to a text starting with a digit: the leading
      run of digits read in decimal; whatever follows the run is ignored. */
  lemma ParseIntValue(s: string)
    requires |s| > 0 && IsDigit(s[0])
    ensures ParseInt(s) == Some(DigitsValue(s[..DigitRun(s)]))
  {
    assert s[0] != '-' && s[0] != '+';
    assert s[0..] == s;
  }

  /** After a '-' sign, the same run of digits negated. */
  lemma ParseIntNegativeValue(s: string)
    requires |s| > 1 && s[0] == '-' && IsDigit(s[1])
    ensures ParseInt(s) == Some(-(DigitsValue(s[1..][..DigitRun(s[1..])]) as int))
  {
    assert IsDigit(s[1..][0]);
  }

  lemma TwoDigitValue(s: string)
    requires |s| == 2 && IsDigit(s[0]) && IsDigit(s[1])
    ensures ParseInt(s) == Some(10 * DigitValue(s[0]) + DigitValue(s[1]))
  {
    assert s[0..] == s;
    assert DigitRun(s[1..][1..]) == 0;
    assert DigitRun(s) == 2;
    assert s[..2] == s;
    assert s[..1] == [s[0]];
    assert DigitsValue([s[0]]) == DigitValue(s[0]) by {
      assert [s[0]][..0] == [];
    }
    assert DigitsValue(s) == DigitsValue(s[..1]) * 10 + DigitValue(s[1]);
  }

  /** `parseInt` reads back the decimal rendering of any natural number, so a
      year written with `toString()` parses to that year. */
  lemma ParseIntOfNatToString(n: nat)
    ensures ParseInt(NatToString(n)) == Some(n)
  {
    var s := NatToString(n);
    assert IsDigit(s[0]);
    assert DigitRun(s) == |s|;
    assert s[0..] == s && s[..|s|] == s;
  }

  /** Decimal rendering of a natural number, as a template literal prints it. */
  function NatToString(n: nat): (s: string)
    ensures |s| > 0
    ensures forall i :: 0 <= i < |s| ==> IsDigit(s[i])
    ensures DigitsValue(s) == n
    ensures n > 0 ==> s[0] != '0'
    ensures |s| > 1 ==> s[0] != '0'
  {
    var d := ['0', '1', '2', '3', '4', '5', '6', '7', '8', '9'][n % 10];
    if n < 10 then [d] else NatToString(n / 10) + [d]
  }
}

/** The backend `post_reactions` table, reduced to what the client relies on:
    a row is identified by the (post, user) pair and carries one kind. A map
    keyed by the pair holds at most one reaction per pair by construction. */
module ReactionTable {
  import opened Common

  type PostId = string

  datatype Key = Key(post: PostId, user: UserId)

  type Table = map<Key, ReactionKind>

  /** The single kind `user` holds on `post`, if any. */
  function ReactionOf(t: Table, post: PostId, user: UserId): Option<ReactionKind>
  {
    var k := Key(post, user);
    if k in t then Some(t[k]) else None
  }

  /** The reference meaning of a toggle: choosing the active kind again clears it,
      any other choice makes the chosen kind the active one. */
  function Toggled(current: Option<ReactionKind>, k: ReactionKind): (r: Option<ReactionKind>)
    ensures r == None <==> current == Some(k)
    ensures r != None ==> r == Some(k)
  {
    if current == Some(k) then None else Some(k)
  }

  /** The final selection after a sequence of toggles, applied left to right. */
  function ToggledAll(current: Option<ReactionKind>, ks: seq<ReactionKind>): Option<ReactionKind>
    decreases |ks|
  {
    if ks == [] then current else ToggledAll(Toggled(current, ks[0]), ks[1..])
  }

  /** What a run of toggles leaves behind: after a non-empty sequence of toggles,
      the selection is the last toggled kind unless that toggle hit the kind
      that was active at that moment, in which case it is cleared. */
  lemma {:induction false} ToggledAllLast(current: Option<ReactionKind>, ks: seq<ReactionKind>)
    requires ks != []
    ensures var before := ToggledAll(current, ks[..|ks| - 1]);
            ToggledAll(current, ks) == if before == Some(ks[|ks| - 1]) then None else Some(ks[|ks| - 1])
    decreases |ks|
  {
    if |ks| > 1 {
      assert ks[1..][..|ks[1..]| - 1] == ks[..|ks| - 1][1..];
      ToggledAllLast(Toggled(current, ks[0]), ks[1..]);
    }
  }

  lemma ToggleTwiceClears(k: ReactionKind)
    ensures ToggledAll(None, [k, k]) == None
  {
    assert [k, k][1..] == [k];
    assert [k][1..] == [];
    assert ToggledAll(None, [k, k]) == ToggledAll(Some(k), [k]);
    assert ToggledAll(Some(k), [k]) == ToggledAll(None, []);
  }

  lemma SwitchKeepsLatest(k1: ReactionKind, k2: ReactionKind)
    requires k1 != k2
    ensures ToggledAll(None, [k1, k2]) == Some(k2)
  {
    assert [k1, k2][1..] == [k2];
    assert [k2][1..] == [];
    assert ToggledAll(None, [k1, k2]) == ToggledAll(Some(k1), [k2]);
    assert ToggledAll(Some(k1), [k2]) == ToggledAll(Some(k2), []);
  }
}
