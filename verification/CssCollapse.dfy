/** Collapsing whitespace, trimming, and the normal form the two steps lead to. */
module CssCollapse {
  import opened Common
  import opened CssText
  import P = CssPositions

  // ------------------------------------------------------------------------- trim

  function TrimStart(s: string): string {
    if s == "" || !IsWhitespace(s[0]) then s else TrimStart(s[1..])
  }

  function TrimEnd(s: string): string {
    if s == "" || !IsWhitespace(s[|s| - 1]) then s else TrimEnd(s[..|s| - 1])
  }

  function Trim(s: string): string { TrimEnd(TrimStart(s)) }

  /** No whitespace at either end. */
  predicate Trimmed(s: string) { s != "" ==> !IsWhitespace(s[0]) && !IsWhitespace(s[|s| - 1]) }

  lemma {:induction false} TrimKeepsTrimmed(s: string)
    requires Trimmed(s)
    ensures Trim(s) == s
  {
  }

  // -------------------------------------------------------------- collapse_css_ws

  /** What collapsing makes of the rest of `s` once it has written `out`. */
  function CollapseFrom(s: string, i: nat, out: string, pending: bool): Option<string>
    requires i <= |s|
    decreases |s| - i
  {
    if i == |s| then if StateAfter(out).quote.None? then Some(Trim(out)) else None
    else if StateAfter(out).quote.Some? then CollapseFrom(s, i + 1, out + [s[i]], false)
    else if IsAsciiSpace(s[i]) then CollapseFrom(s, i + 1, out, true)
    else CollapseFrom(s, i + 1, Spaced(out, pending) + [s[i]], false)
  }

  function Spaced(out: string, pending: bool): string { if pending && out != "" then out + [' '] else out }

  function Collapse(s: string): Option<string> { CollapseFrom(s, 0, "", false) }

  lemma SpacedState(out: string, pending: bool)
    requires StateAfter(out).quote.None?
    ensures StateAfter(Spaced(out, pending)).quote.None? && QuotedPart(Spaced(out, pending)) == QuotedPart(out)
  {
    StateAppend(out, ' ');
    QuotedAppend(out, ' ');
  }

  /** `collapse_css_ws`: inside a string a backslash takes the next character along. */
  method CollapseCssWs(s: string) returns (r: Option<string>)
    ensures r == Collapse(s)
  {
    var out := "";
    var quote: Option<char> := None;
    var pending := false;
    var i := 0;
    while i < |s|
      invariant i <= |s| && Collapse(s) == CollapseFrom(s, i, out, pending)
      invariant StateAfter(out).quote == quote && (quote.Some? ==> !pending)
      invariant StateAfter(out).escaped ==> i == |s| && quote.Some?
      decreases |s| - i
    {
      var c := s[i];
      i := i + 1;
      if quote.Some? {
        StateAppend(out, c);
        out := out + [c];
        if c == '\\' {
          if i < |s| {
            StateAppend(out, s[i]);
            out := out + [s[i]];
            i := i + 1;
          }
        } else if c == quote.value {
          quote := None;
        }
      } else if IsAsciiSpace(c) {
        pending := true;
      } else {
        SpacedState(out, pending);
        StateAppend(Spaced(out, pending), c);
        out := Spaced(out, pending) + [c];
        pending := false;
        if IsQuote(c) { quote := Some(c); }
      }
    }
    return if quote.Some? then None else Some(Trim(out));
  }

  // --------------------------------------------------------------- the normal form

  /** ASCII whitespace outside strings. */
  predicate SpaceAt(s: string, i: nat)
    requires i < |s|
  {
    Outside(s, i) && IsAsciiSpace(s[i])
  }

  /** Such whitespace is a single space wherever it stands. */
  predicate Single(s: string) {
    forall i | 0 <= i < |s| && SpaceAt(s, i) :: s[i] == ' ' && (i + 1 < |s| ==> !SpaceAt(s, i + 1))
  }

  /** Closed, without comments, and nothing left to collapse or trim. */
  predicate Normal(s: string) {
    StateAfter(s) == OUTSIDE && NoComments(s) && Single(s) && Trimmed(s)
  }

  lemma {:induction false} QuoteIsQuote(s: string)
    ensures StateAfter(s).quote.Some? ==> IsQuote(StateAfter(s).quote.value)
    ensures StateAfter(s).quote.None? ==> StateAfter(s) == OUTSIDE
  {
    if s != "" { QuoteIsQuote(s[..|s| - 1]); }
  }

  // Trimming.

  lemma {:induction false} DropState(s: string)
    requires s != "" && Step(OUTSIDE, s[0]) == OUTSIDE
    ensures StateAfter(s[1..]) == StateAfter(s)
  {
    var n := |s| - 1;
    if n == 0 {
      assert s[..0] == "";
    } else {
      DropState(s[..n]);
      assert s[..n][1..] == s[1..][..n - 1];
    }
  }

  lemma DropOutside(s: string, i: nat)
    requires s != "" && Step(OUTSIDE, s[0]) == OUTSIDE && i + 1 < |s|
    ensures Outside(s[1..], i) <==> Outside(s, i + 1)
  {
    DropState(s[..i + 1]);
    assert s[..i + 1][1..] == s[1..][..i];
  }

  lemma WhitespaceStaysOutside(c: char)
    ensures IsWhitespace(c) ==> Step(OUTSIDE, c) == OUTSIDE
  {
  }

  lemma {:induction false} DropFirst(s: string)
    requires s != "" && IsWhitespace(s[0])
    ensures StateAfter(s[1..]) == StateAfter(s) && QuotedPart(s[1..]) == QuotedPart(s)
    ensures NoComments(s) ==> NoComments(s[1..])
    ensures Single(s) ==> Single(s[1..])
  {
    WhitespaceStaysOutside(s[0]);
    DropState(s);
    DropQuoted(s);
    forall i | 0 <= i < |s| - 1 ensures Outside(s[1..], i) <==> Outside(s, i + 1) { DropOutside(s, i); }
    forall i | 0 <= i < |s| - 1 ensures CommentAt(s[1..], i) ==> CommentAt(s, i + 1) {}
    forall i | 0 <= i < |s| - 1 ensures SpaceAt(s[1..], i) <==> SpaceAt(s, i + 1) {}
  }

  lemma {:induction false} DropQuoted(s: string)
    requires s != "" && Step(OUTSIDE, s[0]) == OUTSIDE
    ensures QuotedPart(s[1..]) == QuotedPart(s)
  {
    var n := |s| - 1;
    assert s[..0] == "";
    if n > 0 {
      DropQuoted(s[..n]);
      assert s[..n][1..] == s[1..][..n - 1];
      DropOutside(s, n - 1);
    }
  }

  lemma {:induction false} TrimStartKeeps(s: string)
    requires StateAfter(s) == OUTSIDE && NoComments(s) && Single(s)
    ensures var r := TrimStart(s);
            && StateAfter(r) == OUTSIDE && NoComments(r) && Single(r) && QuotedPart(r) == QuotedPart(s)
            && (r != "" ==> !IsWhitespace(r[0]))
  {
    if s != "" && IsWhitespace(s[0]) {
      DropFirst(s);
      TrimStartKeeps(s[1..]);
    }
  }

  lemma {:induction false} DropLast(s: string)
    requires s != "" && IsWhitespace(s[|s| - 1]) && StateAfter(s) == OUTSIDE
    ensures var r := s[..|s| - 1];
            && StateAfter(r) == OUTSIDE && QuotedPart(r) == QuotedPart(s)
            && (NoComments(s) ==> NoComments(r)) && (Single(s) ==> Single(r))
  {
    var n := |s| - 1;
    var r := s[..n];
    QuoteIsQuote(r);
    assert QuotedPart(s) == QuotedPart(r) + "";
    forall i | 0 <= i < n ensures Outside(r, i) <==> Outside(s, i) { assert r[..i] == s[..i]; }
    forall i | 0 <= i < n ensures CommentAt(r, i) ==> CommentAt(s, i) {}
    forall i | 0 <= i < n ensures SpaceAt(r, i) <==> SpaceAt(s, i) {}
  }

  lemma {:induction false} TrimEndKeeps(s: string)
    requires StateAfter(s) == OUTSIDE && NoComments(s) && Single(s) && (s != "" ==> !IsWhitespace(s[0]))
    ensures Normal(TrimEnd(s)) && QuotedPart(TrimEnd(s)) == QuotedPart(s)
  {
    if s != "" && IsWhitespace(s[|s| - 1]) {
      DropLast(s);
      TrimEndKeeps(s[..|s| - 1]);
    }
  }

  // Collapsing.

  /** What is written so far, against what was read. */
  predicate InStep(s: string, i: nat, out: string, pending: bool)
    requires i <= |s|
  {
    && StateAfter(out) == StateAfter(s[..i]) && NoComments(out) && Single(out)
    && (out != "" ==> !SpaceAt(out, |out| - 1))
    && (out != "" && !pending && Outside(out, |out| - 1) && out[|out| - 1] == '/' ==>
          i > 0 && s[i - 1] == '/' && Outside(s, i - 1))
  }

  lemma {:induction false} SingleAppend(out: string, c: char)
    requires Single(out) && (out != "" && SpaceAt(out, |out| - 1) ==> !(StateAfter(out).quote.None? && IsAsciiSpace(c)))
    requires StateAfter(out).quote.None? && IsAsciiSpace(c) ==> c == ' '
    ensures Single(out + [c])
    ensures SpaceAt(out + [c], |out|) <==> StateAfter(out).quote.None? && IsAsciiSpace(c)
  {
    var r := out + [c];
    assert r[..|out|] == out;
    forall i | 0 <= i < |out| ensures SpaceAt(r, i) <==> SpaceAt(out, i) { OutsideAppend(out, [c], i); }
  }

  /** One more character outside whitespace, after the space that was pending. */
  lemma {:induction false} InStepAppend(s: string, i: nat, out: string, pending: bool)
    requires i < |s| && NoComments(s) && InStep(s, i, out, pending)
    requires StateAfter(out).quote.Some? ==> !pending
    requires StateAfter(out).quote.None? ==> !IsAsciiSpace(s[i])
    ensures InStep(s, i + 1, Spaced(out, pending) + [s[i]], false)
  {
    var c := s[i];
    var mid := Spaced(out, pending);
    if pending && out != "" {
      CleanAppend(out, ' ');
      SingleAppend(out, ' ');
      StateAppend(out, ' ');
      QuoteIsQuote(out);
    }
    assert mid != "" && Outside(mid, |mid| - 1) && mid[|mid| - 1] == '/' ==> c != '*' by {
      if !pending && i > 0 { assert !CommentAt(s, i - 1); }
    }
    CleanAppend(mid, c);
    SingleAppend(mid, c);
    StateAppend(mid, c);
    assert s[..i + 1] == s[..i] + [c];
    StateAppend(s[..i], c);
    assert (mid + [c])[..|mid|] == mid;
  }

  lemma {:induction false} InStepSkip(s: string, i: nat, out: string, pending: bool)
    requires i < |s| && InStep(s, i, out, pending) && StateAfter(out).quote.None? && IsAsciiSpace(s[i])
    ensures InStep(s, i + 1, out, true)
  {
    QuoteIsQuote(out);
    assert s[..i + 1] == s[..i] + [s[i]];
    StateAppend(s[..i], s[i]);
  }

  /** Collapsing a string without comments leads to the normal form. */
  lemma {:induction false} CollapseIsNormal(s: string, i: nat, out: string, pending: bool)
    requires i <= |s| && NoComments(s) && InStep(s, i, out, pending) && (StateAfter(out).quote.Some? ==> !pending)
    ensures CollapseFrom(s, i, out, pending).Some? ==> Normal(CollapseFrom(s, i, out, pending).value)
    decreases |s| - i
  {
    if i == |s| {
      QuoteIsQuote(out);
      if StateAfter(out).quote.None? {
        TrimStartKeeps(out);
        TrimEndKeeps(TrimStart(out));
      }
    } else if StateAfter(out).quote.None? && IsAsciiSpace(s[i]) {
      InStepSkip(s, i, out, pending);
      CollapseIsNormal(s, i + 1, out, true);
    } else {
      InStepAppend(s, i, out, pending);
      CollapseIsNormal(s, i + 1, Spaced(out, pending) + [s[i]], false);
    }
  }

  /** The normal form collapses to itself. */
  lemma {:induction false} NormalCollapses(s: string, i: nat)
    requires i <= |s| && Normal(s) && (0 < i < |s| ==> !SpaceAt(s, i - 1))
    ensures CollapseFrom(s, i, s[..i], false) == Some(s)
    decreases |s| - i
  {
    if i == |s| {
      assert s[..i] == s;
      TrimKeepsTrimmed(s);
    } else if SpaceAt(s, i) {
      assert s[i] == ' ' && i > 0 && i + 1 < |s|;
      assert s[..i + 1] == s[..i] + [' '];
      StateAppend(s[..i], ' ');
      QuoteIsQuote(s[..i]);
      assert !SpaceAt(s, i + 1);
      assert Spaced(s[..i], true) + [s[i + 1]] == s[..i + 2];
      NormalCollapses(s, i + 2);
    } else {
      assert s[..i] + [s[i]] == s[..i + 1];
      NormalCollapses(s, i + 1);
    }
  }

  lemma QuotedStep(s: string, i: nat, out: string, pending: bool)
    requires i < |s| && StateAfter(out) == StateAfter(s[..i]) && QuotedPart(out) == QuotedPart(s[..i])
    requires StateAfter(out).quote.Some? ==> !pending
    ensures if StateAfter(out).quote.None? && IsAsciiSpace(s[i]) then QuotedPart(out) == QuotedPart(s[..i + 1])
            else QuotedPart(Spaced(out, pending) + [s[i]]) == QuotedPart(s[..i + 1])
  {
    assert s[..i + 1] == s[..i] + [s[i]];
    QuotedAppend(s[..i], s[i]);
    if StateAfter(out).quote.None? {
      assert QuotedPart(out) + "" == QuotedPart(out);
      SpacedState(out, pending);
    }
    QuotedAppend(Spaced(out, pending), s[i]);
  }

  lemma QuotedTrim(out: string)
    requires StateAfter(out).quote.None? && NoComments(out) && Single(out)
    ensures QuotedPart(Trim(out)) == QuotedPart(out)
  {
    QuoteIsQuote(out);
    TrimStartKeeps(out);
    TrimEndKeeps(TrimStart(out));
  }

  /** Collapsing touches nothing inside strings. */
  lemma {:induction false} CollapseKeepsQuoted(s: string, i: nat, out: string, pending: bool)
    requires i <= |s| && NoComments(s) && InStep(s, i, out, pending) && (StateAfter(out).quote.Some? ==> !pending)
    requires CollapseFrom(s, i, out, pending).Some? && QuotedPart(out) == QuotedPart(s[..i])
    ensures QuotedPart(CollapseFrom(s, i, out, pending).value) == QuotedPart(s)
    decreases |s| - i
  {
    if i == |s| {
      assert s[..i] == s;
      QuotedTrim(out);
    } else {
      QuotedStep(s, i, out, pending);
      if StateAfter(out).quote.None? && IsAsciiSpace(s[i]) {
        InStepSkip(s, i, out, pending);
        CollapseKeepsQuoted(s, i + 1, out, true);
      } else {
        InStepAppend(s, i, out, pending);
        CollapseKeepsQuoted(s, i + 1, Spaced(out, pending) + [s[i]], false);
      }
    }
  }

  // -------------------------------------------------------- strip, then collapse

  function Normalize(s: string): Option<string> {
    match Strip(s)
    case None => None
    case Some(t) => Collapse(t)
  }

  lemma Begins(s: string)
    ensures InStep(s, 0, "", false) && Clean(s, 0, "")
  {
    assert s[..0] == "";
  }

  lemma NormalizeIsNormal(s: string)
    ensures Normalize(s).Some? ==> Normal(Normalize(s).value)
  {
    Begins(s);
    StripIsClean(s, 0, "");
    if Strip(s).Some? {
      var t := Strip(s).value;
      Begins(t);
      CollapseIsNormal(t, 0, "", false);
    }
  }

  /** What is in normal form normalises to itself, and what normalises is: normalising twice is normalising once. */
  lemma NormalizeIsIdempotent(s: string)
    ensures Normal(s) <==> Normalize(s) == Some(s)
    ensures Normalize(s).Some? ==> Normalize(Normalize(s).value) == Normalize(s)
  {
    NormalizeIsNormal(s);
    if Normal(s) { NormalNormalizes(s); }
    if Normalize(s).Some? { NormalNormalizes(Normalize(s).value); }
  }

  lemma NormalNormalizes(s: string)
    requires Normal(s)
    ensures Normalize(s) == Some(s)
  {
    assert s[..0] == "";
    StripKeepsClean(s, 0);
    NormalCollapses(s, 0);
  }

  /** Normalising keeps all quoted text, in order, to the character. */
  lemma NormalizeKeepsQuoted(s: string)
    ensures Normalize(s).Some? ==> QuotedPart(Normalize(s).value) == QuotedFrom(s, 0, OUTSIDE)
  {
    if Normalize(s).Some? {
      var t := Strip(s).value;
      Begins(s);
      StripIsClean(s, 0, "");
      StripKeepsQuoted(s, 0, "");
      assert QuotedPart("") + QuotedFrom(s, 0, OUTSIDE) == QuotedFrom(s, 0, OUTSIDE);
      Begins(t);
      CollapseKeepsQuoted(t, 0, "", false);
    }
  }

  /** No string closed is opened: normalising fails exactly on an open comment or an open string. */
  lemma {:induction false} CollapseSucceeds(s: string, i: nat, out: string, pending: bool)
    requires i <= |s| && NoComments(s) && InStep(s, i, out, pending) && (StateAfter(out).quote.Some? ==> !pending)
    ensures CollapseFrom(s, i, out, pending).Some? <==> StateAfter(s) == OUTSIDE
    decreases |s| - i
  {
    if i == |s| {
      assert s[..i] == s;
      QuoteIsQuote(out);
    } else if StateAfter(out).quote.None? && IsAsciiSpace(s[i]) {
      InStepSkip(s, i, out, pending);
      CollapseSucceeds(s, i + 1, out, true);
    } else {
      InStepAppend(s, i, out, pending);
      CollapseSucceeds(s, i + 1, Spaced(out, pending) + [s[i]], false);
    }
  }

  lemma NormalizeSucceedsWithStrip(s: string)
    ensures Normalize(s).Some? <==> Strip(s).Some?
  {
    Begins(s);
    StripIsClean(s, 0, "");
    if Strip(s).Some? {
      Begins(Strip(s).value);
      CollapseSucceeds(Strip(s).value, 0, "", false);
    }
  }
}
