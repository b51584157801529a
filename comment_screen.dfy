/**
 * The comment screen's own date helpers (a second copy of the comment
 * date rule, with different fallbacks) and its comment composer: the
 * send guard on the trimmed text and the `isSubmitting` flag that covers
 * the time between sending and the server's answer.
 */
module CommentScreen {
  import opened Wrappers
  import opened DateUtils

  /** The screen's `formatCommentDate`: like the shared one, but it gives back the input when parsing fails in any way. */
  function FormatCommentDate(dateString: string, parse: string -> ParseResult, dayMonth: int -> string, nowMillis: int): (r: string)
    ensures !parse(dateString).Parsed? ==> r == dateString
    ensures parse(dateString).Parsed? ==>
      r == Label(Bucket(nowMillis - parse(dateString).millis), dayMonth(parse(dateString).millis))
  {
    match parse(dateString)
    case Parsed(t) => Label(Bucket(nowMillis - t), dayMonth(t))
    case ParsedNull => dateString
    case ParseThrows => dateString
  }

  /** `formatPostDate`: the formatted date, or the input itself when parsing gives null or throws. */
  function FormatPostDate(dateString: string, parse: string -> ParseResult, format: int -> string): (r: string)
    ensures !parse(dateString).Parsed? ==> r == dateString
    ensures parse(dateString).Parsed? ==> r == format(parse(dateString).millis)
  {
    match parse(dateString)
    case Parsed(t) => format(t)
    case ParsedNull => dateString
    case ParseThrows => dateString
  }

  /**
   * The two comment-date rules agree on every non-empty string whose parse
   * does not throw; on a throw the shared one says "Ora" and this one
   * returns the input.
   */
  lemma CommentDateCopiesAgree(dateString: string, parse: string -> ParseResult, dayMonth: int -> string, nowMillis: int)
    ensures dateString != "" && !parse(dateString).ParseThrows? ==>
      FormatCommentDate(dateString, parse, dayMonth, nowMillis)
        == DateUtils.FormatCommentDate(Some(dateString), parse, dayMonth, nowMillis)
    ensures dateString != "" && parse(dateString).ParseThrows? ==>
      && FormatCommentDate(dateString, parse, dayMonth, nowMillis) == dateString
      && DateUtils.FormatCommentDate(Some(dateString), parse, dayMonth, nowMillis) == "Ora"
  {
  }

  /** The ASCII characters Kotlin's `isWhitespace` accepts: tab to carriage return, the separators 28 to 31, space. */
  predicate IsWhitespace(c: char)
  {
    9 <= c as int <= 13 || 28 <= c as int <= 32
  }

  /** All whitespace: what `isBlank()` tests. */
  predicate IsBlank(s: string)
  {
    forall k :: 0 <= k < |s| ==> IsWhitespace(s[k])
  }

  /** How many whitespace characters `s` starts with. */
  function Leading(s: string): (n: nat)
    ensures n <= |s| && IsBlank(s[..n])
    ensures n == |s| || !IsWhitespace(s[n])
    decreases |s|
  {
    if s != [] && IsWhitespace(s[0]) then
      var n := Leading(s[1..]);
      assert s[..n + 1] == [s[0]] + s[1..][..n];
      n + 1
    else 0
  }

  /** How many whitespace characters `s` ends with. */
  function Trailing(s: string): (n: nat)
    ensures n <= |s| && IsBlank(s[|s| - n..])
    ensures n == |s| || !IsWhitespace(s[|s| - n - 1])
    decreases |s|
  {
    if s != [] && IsWhitespace(s[|s| - 1]) then
      var n := Trailing(s[..|s| - 1]);
      assert s[|s| - n - 1..] == s[..|s| - 1][|s| - 1 - n..] + [s[|s| - 1]];
      n + 1
    else 0
  }

  /** `trim()`: the text between the leading and the trailing whitespace. */
  function Trim(s: string): (r: string)
    ensures Leading(s) + |r| <= |s| && r == s[Leading(s)..Leading(s) + |r|]
    ensures IsBlank(s[..Leading(s)]) && IsBlank(s[Leading(s) + |r|..])
    ensures r == [] || (!IsWhitespace(r[0]) && !IsWhitespace(r[|r| - 1]))
  {
    var i := Leading(s);
    if i == |s| then []
    else
      var j := |s| - Trailing(s);
      s[i..j]
  }

  /** A trimmed text is empty exactly when the text is all whitespace; `trim().isBlank()` is that test. */
  lemma TrimEmptyIffBlank(s: string)
    ensures Trim(s) == [] <==> IsBlank(s)
  {
    var r := Trim(s);
    var i := Leading(s);
    if r != [] {
      assert r[0] == s[i];
    } else {
      assert s == s[..i] + s[i..];
    }
  }

  /** Trimming twice changes nothing more. */
  lemma TrimIdempotent(s: string)
    ensures Trim(Trim(s)) == Trim(s)
  {
    var r := Trim(s);
    if r != [] {
      assert Leading(r) == 0;
      assert Trailing(r) == 0;
      assert r[0..|r|] == r;
    }
  }

  /** The comment box of the comment screen: the text being written and the submitting flag. */
  class CommentComposer {
    var commentText: string
    var isSubmitting: bool

    constructor ()
      ensures commentText == "" && !isSubmitting
    {
      commentText := "";
      isSubmitting := false;
    }

    /** The send button is enabled iff the text has a non-whitespace character and nothing is being sent. */
    function SendEnabled(): (enabled: bool)
      reads this
      ensures enabled <==> (exists k :: 0 <= k < |commentText| && !IsWhitespace(commentText[k])) && !isSubmitting
    {
      TrimEmptyIffBlank(commentText);
      !IsBlank(Trim(commentText)) && !isSubmitting
    }

    /** `onValueChange`; the text field is disabled while a comment is being sent. */
    method Edit(text: string)
      requires !isSubmitting
      modifies this
      ensures commentText == text && !isSubmitting
    {
      commentText := text;
    }

    /**
     * The send button's click: a blank comment is refused and nothing
     * changes; otherwise the trimmed text is sent and the flag is raised.
     */
    method Submit() returns (sent: Option<string>)
      modifies this
      ensures sent.None? <==> IsBlank(commentText)
      ensures sent.None? ==> isSubmitting == old(isSubmitting)
      ensures sent.Some? ==> sent.value == Trim(commentText) && sent.value != [] && isSubmitting
      ensures commentText == old(commentText)
    {
      TrimEmptyIffBlank(commentText);
      if IsBlank(Trim(commentText)) {
        return None;
      }
      isSubmitting := true;
      sent := Some(Trim(commentText));
    }

    /** The server accepted the comment: the box is cleared and unlocked. */
    method OnSuccess()
      modifies this
      ensures commentText == "" && !isSubmitting
    {
      commentText := "";
      isSubmitting := false;
    }

    /** The server refused the comment: the box is unlocked and keeps the text for another try. */
    method OnError()
      modifies this
      ensures commentText == old(commentText) && !isSubmitting
    {
      isSubmitting := false;
    }
  }

  lemma TrimExample()
    ensures Trim("  ciao ") == "ciao" && !IsBlank("  ciao ")
  {
    assert Leading("  ciao "[1..][1..]) == 0;
    assert Leading("  ciao ") == 2;
    assert Trailing("  ciao "[..6]) == 0;
    assert Trailing("  ciao ") == 1;
    assert !IsWhitespace("  ciao "[2]);
  }

  /** Send "  ciao ", fail, send again, succeed: "ciao" is sent twice and the box ends empty. */
  method RetryAfterError() returns (first: Option<string>, second: Option<string>, text: string, locked: bool)
    ensures first == Some("ciao") && second == Some("ciao")
    ensures text == "" && !locked
  {
    var box := new CommentComposer();
    box.Edit("  ciao ");
    TrimExample();
    first := box.Submit();
    box.OnError();
    second := box.Submit();
    box.OnSuccess();
    text, locked := box.commentText, box.isSubmitting;
  }
}
