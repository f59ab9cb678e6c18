/** The local comment sheet: a list of comments kept in component state (two
    canned comments to start with) and an input box. Submitting puts the new
    comment first and clears the box; nothing is sent to the backend. */
module CommentSection {
  import opened Common

  datatype LocalComment = LocalComment(id: string, content: string, author: string, isAnonymous: bool, createdAt: string)

  const AnonymousAuthor: string := "익명"

  /** The characters `String.prototype.trim` removes: white space and line terminators. */
  predicate IsTrimmable(c: char)
  {
    c in {' ', '\t', '\n', '\r', '\U{000B}', '\U{000C}', '\U{00A0}', '\U{FEFF}', '\U{1680}',
          '\U{2000}', '\U{2001}', '\U{2002}', '\U{2003}', '\U{2004}', '\U{2005}', '\U{2006}',
          '\U{2007}', '\U{2008}', '\U{2009}', '\U{200A}', '\U{2028}', '\U{2029}', '\U{202F}',
          '\U{205F}', '\U{3000}'}
  }

  /** `s.trimStart()`: drops the leading white space. */
  function TrimStart(s: string): (r: string)
    ensures |r| <= |s| && r == s[|s| - |r|..]
    ensures forall i :: 0 <= i < |s| - |r| ==> IsTrimmable(s[i])
    ensures r == [] || !IsTrimmable(r[0])
    ensures r == [] <==> forall i :: 0 <= i < |s| ==> IsTrimmable(s[i])
  {
    if s == [] || !IsTrimmable(s[0]) then s else TrimStart(s[1..])
  }

  /** `s.trimEnd()`: drops the trailing white space. */
  function TrimEnd(s: string): (r: string)
    ensures r <= s
    ensures forall i :: |r| <= i < |s| ==> IsTrimmable(s[i])
    ensures r == [] || !IsTrimmable(r[|r| - 1])
    ensures r == [] <==> forall i :: 0 <= i < |s| ==> IsTrimmable(s[i])
  {
    if s == [] || !IsTrimmable(s[|s| - 1]) then s else TrimEnd(s[..|s| - 1])
  }

  /** `text.trim()`: white space dropped from both ends. */
  function Trim(text: string): string
  {
    TrimEnd(TrimStart(text))
  }

  /** `!text.trim()`: nothing but white space. */
  predicate IsBlank(text: string)
  {
    forall i :: 0 <= i < |text| ==> IsTrimmable(text[i])
  }

  /** The trimmed text is empty exactly when every character is white space. */
  lemma BlankIffTrimEmpty(text: string)
    ensures IsBlank(text) <==> Trim(text) == []
  {
    var t := TrimStart(text);
    assert t != [] ==> !IsTrimmable(t[0]);
  }

  /** The comment a valid submit creates: anonymous, by "익명", holding the
      input exactly as typed (untrimmed). */
  function NewLocalComment(text: string, id: string, createdAt: string): (c: LocalComment)
    ensures c.content == text && c.author == AnonymousAuthor && c.isAnonymous
    ensures c.id == id && c.createdAt == createdAt
  {
    LocalComment(id, text, AnonymousAuthor, true, createdAt)
  }

  /** What the sheet renders: nothing when closed; otherwise a header with the
      number of comments and the comments in list order. */
  datatype Sheet = Sheet(headerCount: nat, shown: seq<LocalComment>)

  function Render(isOpen: bool, comments: seq<LocalComment>): (r: Option<Sheet>)
    ensures r.None? <==> !isOpen
    ensures r.Some? ==> r.value.headerCount == |comments| && r.value.shown == comments
  {
    if !isOpen then None else Some(Sheet(|comments|, comments))
  }

  class CommentSectionState {
    var comments: seq<LocalComment>
    var newComment: string

    /** The initial state: two canned anonymous comments, timestamps given by the clock. */
    constructor (thirtyMinutesAgo: string, twoHoursAgo: string)
      ensures newComment == "" && |comments| == 2
      ensures comments[0] == LocalComment("1", "좋은 글이네요! 도움이 되었습니다.", AnonymousAuthor, true, thirtyMinutesAgo)
      ensures comments[1] == LocalComment("2", "저도 같은 생각입니다. 공감해요.", AnonymousAuthor, true, twoHoursAgo)
    {
      comments := [
        LocalComment("1", "좋은 글이네요! 도움이 되었습니다.", AnonymousAuthor, true, thirtyMinutesAgo),
        LocalComment("2", "저도 같은 생각입니다. 공감해요.", AnonymousAuthor, true, twoHoursAgo)
      ];
      newComment := "";
    }

    /** Typing into the box. */
    method SetInput(text: string)
      modifies this`newComment
      ensures newComment == text
    {
      newComment := text;
    }

    /** `handleSubmitComment`; `id` and `createdAt` come from the clock. A blank
        input changes nothing; otherwise the comment goes first and the box clears. */
    method SubmitComment(id: string, createdAt: string)
      modifies this
      ensures IsBlank(old(newComment)) ==> comments == old(comments) && newComment == old(newComment)
      ensures !IsBlank(old(newComment)) ==>
                comments == [NewLocalComment(old(newComment), id, createdAt)] + old(comments) && newComment == ""
      ensures !IsBlank(old(newComment)) ==> |comments| == |old(comments)| + 1 && comments[1..] == old(comments)
    {
      if IsBlank(newComment) {
        return;
      }
      var comment := NewLocalComment(newComment, id, createdAt);
      comments := [comment] + comments;
      newComment := "";
    }
  }
}
