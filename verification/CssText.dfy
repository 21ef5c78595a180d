/**
 * Normalising selectors and values: comments become spaces, runs of
 * whitespace outside strings become one, and doing it again changes nothing.
 */
module CssText {
  import opened Common
  import P = CssPositions

  const MAX_SELECTOR_BYTES := 256

  predicate IsQuote(c: char) { c == '\'' || c == '"' }

  predicate IsAsciiSpace(c: char) { c == ' ' || c == '\t' || c == '\n' || c == '\U{0C}' || c == '\r' }

  // ------------------------------------------------------------- inside and outside

  /** Inside which quotes, and whether a backslash has just been read there. */
  datatype State = State(quote: Option<char>, escaped: bool)

  const OUTSIDE := State(None, false)

  function Step(st: State, c: char): State {
    if st.quote.None? then if IsQuote(c) then State(Some(c), false) else OUTSIDE
    else if st.escaped then State(st.quote, false)
    else if c == '\\' then State(st.quote, true)
    else if c == st.quote.value then OUTSIDE
    else st
  }

  function StateAfter(s: string): State {
    if s == "" then OUTSIDE else Step(StateAfter(s[..|s| - 1]), s[|s| - 1])
  }

  lemma StateAppend(s: string, c: char)
    ensures StateAfter(s + [c]) == Step(StateAfter(s), c)
  {
    assert (s + [c])[..|s|] == s;
  }

  /** The `i`-th character is outside strings. */
  predicate Outside(s: string, i: nat)
    requires i < |s|
  {
    StateAfter(s[..i]).quote.None? && !IsQuote(s[i])
  }

  predicate CommentAt(s: string, i: nat) {
    i + 1 < |s| && Outside(s, i) && s[i] == '/' && s[i + 1] == '*'
  }

  predicate NoComments(s: string) { forall i | 0 <= i < |s| :: !CommentAt(s, i) }

  /** The quoted text of a string without comments, quotes and escapes included, in order. */
  function QuotedPart(s: string): string {
    if s == "" then ""
    else QuotedPart(s[..|s| - 1]) + (if Outside(s, |s| - 1) then "" else [s[|s| - 1]])
  }

  lemma QuotedAppend(s: string, c: char)
    ensures QuotedPart(s + [c]) == QuotedPart(s) + (if StateAfter(s).quote.None? && !IsQuote(c) then "" else [c])
  {
    assert (s + [c])[..|s|] == s;
  }

  lemma {:induction false} OutsideAppend(s: string, t: string, i: nat)
    requires i < |s|
    ensures Outside(s + t, i) <==> Outside(s, i)
  {
    assert (s + t)[..i] == s[..i];
  }

  // ---------------------------------------------------------------- strip_comments

  function CommentEnd(s: string, from: nat): (r: Option<nat>)
    ensures r.Some? ==> from < r.value <= |s|
    decreases |s| - from
  {
    if from + 1 >= |s| then None
    else if s[from] == '*' && s[from + 1] == '/' then Some(from + 2)
    else CommentEnd(s, from + 1)
  }

  predicate EndsInSpace(out: string) { out != "" && IsWhitespace(out[|out| - 1]) }

  predicate OpensComment(s: string, i: nat) { i + 1 < |s| && s[i] == '/' && s[i + 1] == '*' }

  /** What stripping makes of the rest of `s` once it has written `out`. */
  function StripFrom(s: string, i: nat, out: string): Option<string>
    requires i <= |s|
    decreases |s| - i
  {
    if i == |s| then if StateAfter(out) == OUTSIDE then Some(out) else None
    else if StateAfter(out).quote.None? && OpensComment(s, i) then
      (match CommentEnd(s, i + 2)
       case None => None
       case Some(e) => StripFrom(s, e, if EndsInSpace(out) then out else out + " "))
    else StripFrom(s, i + 1, out + [s[i]])
  }

  function Strip(s: string): Option<string> { StripFrom(s, 0, "") }

  /** `strip_comments` */
  method StripComments(s: string) returns (r: Option<string>)
    ensures r == Strip(s)
  {
    var out := "";
    var i := 0;
    var quote: Option<char> := None;
    var escaped := false;
    while i < |s|
      invariant i <= |s| && Strip(s) == StripFrom(s, i, out) && StateAfter(out) == State(quote, escaped)
      decreases |s| - i
    {
      if quote.None? && s[i] == '/' && i + 1 < |s| && s[i + 1] == '*' {
        var e := SkipComment(s, i);
        if e.None? { return None; }
        i := e.value;
        if !EndsInSpace(out) {
          StateAppend(out, ' ');
          out := out + " ";
          escaped := false;
        }
      } else {
        var c := s[i];
        StateAppend(out, c);
        out := out + [c];
        i := i + 1;
        if quote.Some? {
          if escaped { escaped := false; }
          else if c == '\\' { escaped := true; }
          else if c == quote.value { quote := None; }
        } else if IsQuote(c) {
          quote, escaped := Some(c), false;
        } else {
          escaped := false;
        }
      }
    }
    return if quote.Some? || escaped then None else Some(out);
  }

  method SkipComment(s: string, start: nat) returns (r: Option<nat>)
    requires start + 2 <= |s|
    ensures r == CommentEnd(s, start + 2)
  {
    var cursor := start + 2;
    while cursor + 1 < |s|
      invariant cursor <= |s| && CommentEnd(s, cursor) == CommentEnd(s, start + 2)
    {
      if s[cursor] == '*' && s[cursor + 1] == '/' { return Some(cursor + 2); }
      cursor := cursor + 1;
    }
    return None;
  }

  /** What is written so far opens no comment, and does not begin one with what comes next. */
  predicate Clean(s: string, i: nat, out: string) {
    && NoComments(out)
    && (out != "" && Outside(out, |out| - 1) && out[|out| - 1] == '/' && i < |s| ==> s[i] != '*')
  }

  lemma {:induction false} CleanAppend(out: string, c: char)
    requires NoComments(out)
    requires out != "" && Outside(out, |out| - 1) && out[|out| - 1] == '/' ==> c != '*'
    ensures NoComments(out + [c])
  {
    var r := out + [c];
    forall i | 0 <= i < |r| ensures !CommentAt(r, i) {
      if i < |out| {
        OutsideAppend(out, [c], i);
        assert !CommentAt(out, i);
      }
    }
  }

  /** Stripping leaves no comment and no open string. */
  lemma {:induction false} StripIsClean(s: string, i: nat, out: string)
    requires i <= |s| && Clean(s, i, out)
    ensures var r := StripFrom(s, i, out);
            r.Some? ==> NoComments(r.value) && StateAfter(r.value) == OUTSIDE
    decreases |s| - i
  {
    if i < |s| {
      if StateAfter(out).quote.None? && OpensComment(s, i) {
        var e := CommentEnd(s, i + 2);
        if e.Some? {
          var out' := if EndsInSpace(out) then out else out + " ";
          CleanAppend(out, ' ');
          StripIsClean(s, e.value, out');
        }
      } else {
        var out' := out + [s[i]];
        CleanAppend(out, s[i]);
        assert out'[..|out|] == out;
        StripIsClean(s, i + 1, out');
      }
    }
  }

  /** A string without comments strips to itself. */
  lemma {:induction false} StripKeepsClean(s: string, i: nat)
    requires i <= |s| && NoComments(s) && StateAfter(s) == OUTSIDE
    ensures StripFrom(s, i, s[..i]) == Some(s)
    decreases |s| - i
  {
    if i == |s| {
      assert s[..i] == s;
    } else {
      assert !CommentAt(s, i);
      assert s[..i] + [s[i]] == s[..i + 1];
      StripKeepsClean(s, i + 1);
    }
  }

  /** The quoted text of a string with comments in it. */
  function QuotedFrom(s: string, i: nat, st: State): string
    requires i <= |s|
    decreases |s| - i
  {
    if i == |s| then ""
    else if st.quote.None? && OpensComment(s, i) then
      (match CommentEnd(s, i + 2)
       case None => ""
       case Some(e) => QuotedFrom(s, e, OUTSIDE))
    else (if st.quote.None? && !IsQuote(s[i]) then "" else [s[i]]) + QuotedFrom(s, i + 1, Step(st, s[i]))
  }

  lemma {:induction false} StripKeepsQuoted(s: string, i: nat, out: string)
    requires i <= |s| && StripFrom(s, i, out).Some? && (StateAfter(out).quote.None? ==> StateAfter(out) == OUTSIDE)
    ensures QuotedPart(StripFrom(s, i, out).value) == QuotedPart(out) + QuotedFrom(s, i, StateAfter(out))
    decreases |s| - i
  {
    if i < |s| {
      var st := StateAfter(out);
      if st.quote.None? && OpensComment(s, i) {
        var e := CommentEnd(s, i + 2).value;
        SpaceIsNotQuoted(out);
        StripKeepsQuoted(s, e, if EndsInSpace(out) then out else out + " ");
      } else {
        var here := if st.quote.None? && !IsQuote(s[i]) then "" else [s[i]];
        StateAppend(out, s[i]);
        QuotedAppend(out, s[i]);
        StripKeepsQuoted(s, i + 1, out + [s[i]]);
        Regroup(QuotedPart(out), here, QuotedFrom(s, i + 1, Step(st, s[i])));
      }
    }
  }

  lemma Regroup(a: string, b: string, c: string)
    ensures (a + b) + c == a + (b + c)
  {
  }

  lemma SpaceIsNotQuoted(out: string)
    requires StateAfter(out) == OUTSIDE
    ensures QuotedPart(out + " ") == QuotedPart(out) && StateAfter(out + " ") == OUTSIDE
  {
    StateAppend(out, ' ');
    QuotedAppend(out, ' ');
    assert out + " " == out + [' '];
    assert QuotedPart(out) + "" == QuotedPart(out);
  }
}
