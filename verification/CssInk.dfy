/**
 * What normalising keeps: every character inside strings or other than ASCII
 * whitespace, in order, and whether whitespace or a comment stands before it.
 */
module CssInk {
  import opened Common
  import opened CssText
  import opened CssCollapse
  import L = CssLexer

  /** A character that is kept, and whether it stands apart from the one before. */
  datatype Ink = Ink(c: char, apart: bool)

  /** What comes next stands apart: it comes first, or behind whitespace outside strings. */
  predicate Apart(s: string) { s == "" || (StateAfter(s).quote.None? && IsWhitespace(s[|s| - 1])) }

  /** The characters of a text without comments. */
  function InkPart(s: string): seq<Ink> {
    if s == "" then []
    else
      var n := |s| - 1;
      InkPart(s[..n]) + (if SpaceAt(s, n) then [] else [Ink(s[n], Apart(s[..n]))])
  }

  /** The characters of a text with comments in it, from the `i`-th on; a comment stands between what is around it. */
  function InkFrom(s: string, i: nat, st: State, apart: bool): seq<Ink>
    requires i <= |s|
    decreases |s| - i
  {
    if i == |s| then []
    else if st.quote.None? && OpensComment(s, i) then
      (match CommentEnd(s, i + 2)
       case None => []
       case Some(e) => InkFrom(s, e, OUTSIDE, true))
    else if st.quote.None? && IsAsciiSpace(s[i]) then InkFrom(s, i + 1, OUTSIDE, true)
    else
      var st' := Step(st, s[i]);
      [Ink(s[i], apart)] + InkFrom(s, i + 1, st', st'.quote.None? && IsWhitespace(s[i]))
  }

  /** No comment and no string of the text stays open. */
  predicate EndsWell(s: string, i: nat, st: State)
    requires i <= |s|
    decreases |s| - i
  {
    if i == |s| then st == OUTSIDE
    else if st.quote.None? && OpensComment(s, i) then
      (match CommentEnd(s, i + 2)
       case None => false
       case Some(e) => EndsWell(s, e, OUTSIDE))
    else EndsWell(s, i + 1, Step(st, s[i]))
  }

  lemma InkAppend(s: string, c: char)
    ensures InkPart(s + [c]) ==
            InkPart(s) + (if StateAfter(s).quote.None? && IsAsciiSpace(c) then [] else [Ink(c, Apart(s))])
    ensures Apart(s + [c]) <==> Step(StateAfter(s), c).quote.None? && IsWhitespace(c)
  {
    assert (s + [c])[..|s|] == s;
    StateAppend(s, c);
  }

  // ----------------------------------------------------------------------- strip

  lemma Regroup(a: seq<Ink>, b: seq<Ink>, c: seq<Ink>)
    ensures (a + b) + c == a + (b + c)
  {
  }

  lemma {:induction false} StripFromKeepsInk(s: string, i: nat, out: string)
    requires i <= |s| && (StateAfter(out).quote.None? ==> StateAfter(out) == OUTSIDE)
    ensures var r := StripFrom(s, i, out);
            && (r.Some? <==> EndsWell(s, i, StateAfter(out)))
            && (r.Some? ==> InkPart(r.value) == InkPart(out) + InkFrom(s, i, StateAfter(out), Apart(out)))
    decreases |s| - i
  {
    if i < |s| {
      var st := StateAfter(out);
      if st.quote.None? && OpensComment(s, i) {
        var e := CommentEnd(s, i + 2);
        InkAppend(out, ' ');
        StateAppend(out, ' ');
        if e.Some? { StripFromKeepsInk(s, e.value, if EndsInSpace(out) then out else out + " "); }
      } else {
        StateAppend(out, s[i]);
        InkAppend(out, s[i]);
        StripFromKeepsInk(s, i + 1, out + [s[i]]);
        if !(st.quote.None? && IsAsciiSpace(s[i])) {
          var st' := Step(st, s[i]);
          Regroup(InkPart(out), [Ink(s[i], Apart(out))],
                  InkFrom(s, i + 1, st', st'.quote.None? && IsWhitespace(s[i])));
        }
      }
    }
  }

  /** Stripping fails exactly on an open comment or string, and keeps every character outside comments. */
  lemma StripKeepsInk(s: string)
    ensures Strip(s).Some? <==> EndsWell(s, 0, OUTSIDE)
    ensures Strip(s).Some? ==> InkPart(Strip(s).value) == InkFrom(s, 0, OUTSIDE, true)
  {
    StripFromKeepsInk(s, 0, "");
  }

  // -------------------------------------------------------------------- collapse

  function TrimStartInk(ink: seq<Ink>): seq<Ink> {
    if ink != [] && IsWhitespace(ink[0].c) then TrimStartInk(ink[1..]) else ink
  }

  function TrimEndInk(ink: seq<Ink>): seq<Ink> {
    if ink != [] && IsWhitespace(ink[|ink| - 1].c) then TrimEndInk(ink[..|ink| - 1]) else ink
  }

  /** Without whitespace at either end. */
  function TrimInk(ink: seq<Ink>): seq<Ink> { TrimEndInk(TrimStartInk(ink)) }

  lemma TrimEndOne(ink: seq<Ink>, x: Ink)
    ensures TrimEndInk(ink + [x]) == if IsWhitespace(x.c) then TrimEndInk(ink) else ink + [x]
  {
    assert (ink + [x])[..|ink|] == ink;
  }

  lemma TrimStartOne(ink: seq<Ink>, x: Ink)
    ensures TrimStartInk([x] + ink) == if IsWhitespace(x.c) then TrimStartInk(ink) else [x] + ink
  {
    assert ([x] + ink)[1..] == ink;
  }

  lemma {:induction false} TrimEndKeepsInk(s: string)
    requires StateAfter(s).quote.None?
    ensures InkPart(TrimEnd(s)) == TrimEndInk(InkPart(s))
  {
    if s != "" {
      var n := |s| - 1;
      assert s == s[..n] + [s[n]];
      InkAppend(s[..n], s[n]);
      StateAppend(s[..n], s[n]);
      QuoteIsQuote(s[..n]);
      TrimEndOne(InkPart(s[..n]), Ink(s[n], Apart(s[..n])));
      assert InkPart(s[..n]) + [] == InkPart(s[..n]);
      if IsWhitespace(s[n]) { TrimEndKeepsInk(s[..n]); }
    }
  }

  lemma DropApart(s: string)
    requires s != "" && IsWhitespace(s[0])
    ensures Apart(s[1..]) <==> Apart(s)
  {
    WhitespaceStaysOutside(s[0]);
    DropState(s);
  }

  /** The ink of one character at the end, wherever the text starts. */
  lemma LastInk(s: string)
    requires s != ""
    ensures var n := |s| - 1;
            InkPart(s) == InkPart(s[..n]) + (if StateAfter(s[..n]).quote.None? && IsAsciiSpace(s[n]) then []
                                             else [Ink(s[n], Apart(s[..n]))])
  {
    assert s == s[..|s| - 1] + [s[|s| - 1]];
    InkAppend(s[..|s| - 1], s[|s| - 1]);
  }

  /** Whitespace in front changes nothing behind it. */
  lemma {:induction false} DropFirstInk(s: string)
    requires s != "" && IsWhitespace(s[0])
    ensures InkPart(s) == (if IsAsciiSpace(s[0]) then [] else [Ink(s[0], true)]) + InkPart(s[1..])
  {
    hide InkPart, Apart, SpaceAt;
    var n := |s| - 1;
    LastInk(s);
    if n == 0 {
      assert s[..0] == "" && s[1..] == "";
      NoInk();
    } else {
      var rest := s[1..];
      DropFirstInk(s[..n]);
      WhitespaceStaysOutside(s[0]);
      DropState(s[..n]);
      DropApart(s[..n]);
      assert s[..n][1..] == rest[..n - 1] && rest[n - 1] == s[n];
      LastInk(rest);
      Regroup(if IsAsciiSpace(s[0]) then [] else [Ink(s[0], true)], InkPart(rest[..n - 1]),
              if StateAfter(s[..n]).quote.None? && IsAsciiSpace(s[n]) then [] else [Ink(s[n], Apart(s[..n]))]);
    }
  }

  lemma NoInk()
    ensures InkPart("") == [] && Apart("") && StateAfter("").quote.None?
  {
  }

  lemma {:induction false} FirstInk(s: string)
    requires s != "" && !IsWhitespace(s[0])
    ensures InkPart(s) != [] && InkPart(s)[0].c == s[0]
  {
    var n := |s| - 1;
    if n == 0 {
      assert s[..0] == "";
    } else {
      FirstInk(s[..n]);
    }
  }

  lemma {:induction false} TrimStartKeepsInk(s: string)
    ensures InkPart(TrimStart(s)) == TrimStartInk(InkPart(s)) && StateAfter(TrimStart(s)) == StateAfter(s)
  {
    if s != "" && IsWhitespace(s[0]) {
      WhitespaceStaysOutside(s[0]);
      DropState(s);
      DropFirstInk(s);
      TrimStartOne(InkPart(s[1..]), Ink(s[0], true));
      assert [] + InkPart(s[1..]) == InkPart(s[1..]);
      TrimStartKeepsInk(s[1..]);
    } else if s != "" {
      FirstInk(s);
    }
  }

  /** Where collapsing is: what it has written stands for what it has read. */
  predicate StandsForRead(s: string, i: nat, out: string, pending: bool)
    requires i <= |s|
  {
    && StateAfter(out) == StateAfter(s[..i]) && InkPart(out) == InkPart(s[..i])
    && (StateAfter(out).quote.Some? ==> !pending) && (pending || Apart(out) <==> Apart(s[..i]))
  }

  lemma {:induction false} SpacedInk(out: string, pending: bool)
    requires StateAfter(out).quote.None?
    ensures InkPart(Spaced(out, pending)) == InkPart(out) && (Apart(Spaced(out, pending)) <==> pending || Apart(out))
    ensures StateAfter(Spaced(out, pending)) == StateAfter(out)
  {
    QuoteIsQuote(out);
    InkAppend(out, ' ');
    StateAppend(out, ' ');
  }

  lemma {:induction false} ReadsOn(s: string, i: nat, out: string, pending: bool)
    requires i < |s| && StandsForRead(s, i, out, pending)
    ensures if StateAfter(out).quote.None? && IsAsciiSpace(s[i]) then StandsForRead(s, i + 1, out, true)
            else StandsForRead(s, i + 1, Spaced(out, pending) + [s[i]], false)
  {
    var c := s[i];
    assert s[..i + 1] == s[..i] + [c];
    InkAppend(s[..i], c);
    StateAppend(s[..i], c);
    if StateAfter(out).quote.None? {
      QuoteIsQuote(out);
      SpacedInk(out, pending);
    }
    InkAppend(Spaced(out, pending), c);
    StateAppend(Spaced(out, pending), c);
  }

  lemma {:induction false} CollapseFromKeepsInk(s: string, i: nat, out: string, pending: bool)
    requires i <= |s| && StandsForRead(s, i, out, pending)
    ensures var r := CollapseFrom(s, i, out, pending);
            && (r.Some? <==> StateAfter(s).quote.None?) && (r.Some? ==> InkPart(r.value) == TrimInk(InkPart(s)))
    decreases |s| - i
  {
    hide StandsForRead;
    ReadSoFar(s, i, out, pending);
    if i == |s| {
      assert s[..i] == s;
      TrimStartKeepsInk(out);
      if StateAfter(out).quote.None? { TrimEndKeepsInk(TrimStart(out)); }
    } else {
      ReadsOn(s, i, out, pending);
      if StateAfter(out).quote.None? && IsAsciiSpace(s[i]) {
        CollapseFromKeepsInk(s, i + 1, out, true);
      } else {
        CollapseFromKeepsInk(s, i + 1, Spaced(out, pending) + [s[i]], false);
      }
    }
  }

  lemma ReadSoFar(s: string, i: nat, out: string, pending: bool)
    requires i <= |s| && StandsForRead(s, i, out, pending)
    ensures StateAfter(out) == StateAfter(s[..i]) && InkPart(out) == InkPart(s[..i])
    ensures StateAfter(out).quote.Some? ==> !pending
  {
  }

  /** Collapsing fails exactly on an open string, and keeps every character but whitespace, apart or not. */
  lemma CollapseKeepsInk(s: string)
    ensures Collapse(s).Some? <==> StateAfter(s).quote.None?
    ensures Collapse(s).Some? ==> InkPart(Collapse(s).value) == TrimInk(InkPart(s))
  {
    assert s[..0] == "";
    CollapseFromKeepsInk(s, 0, "", false);
  }

  /** Normalising keeps every character outside comments and whitespace, and separates what was separated. */
  lemma NormalizeKeepsInk(s: string)
    ensures Normalize(s).Some? <==> EndsWell(s, 0, OUTSIDE)
    ensures Normalize(s).Some? ==> InkPart(Normalize(s).value) == TrimInk(InkFrom(s, 0, OUTSIDE, true))
  {
    StripKeepsInk(s);
    NormalizeSucceedsWithStrip(s);
    if Strip(s).Some? { CollapseKeepsInk(Strip(s).value); }
  }

  // ------------------------------------------------------------- one notion of strings

  /** The characters as numbers, to be read by the lexer. */
  function Codes(s: string): seq<nat> { seq(|s|, i requires 0 <= i < |s| => s[i] as nat) }

  lemma {:induction false} CommentEndsAlike(s: string, from: nat)
    ensures CommentEnd(s, from) == L.CommentEnd(Codes(s), from, |s|)
    decreases |s| - from
  {
    if from + 1 < |s| && !(s[from] == '*' && s[from + 1] == '/') { CommentEndsAlike(s, from + 1); }
  }

  lemma {:induction false} EndsAlike(s: string, i: nat, st: State)
    requires i <= |s| && !st.escaped && (st.quote.Some? ==> IsQuote(st.quote.value))
    ensures EndsWell(s, i, st) <==>
              L.Code(Codes(s), i, |s|, if st.quote.None? then None else Some(st.quote.value as nat)).ending == L.Clean
    decreases |s| - i
  {
    if i == |s| {
    } else if st.quote.None? && OpensComment(s, i) {
      CommentEndsAlike(s, i + 2);
      var e := CommentEnd(s, i + 2);
      if e.Some? { EndsAlike(s, e.value, OUTSIDE); }
    } else if st.quote.Some? && s[i] == '\\' {
      if i + 1 < |s| { EndsAlike(s, i + 2, st); }
    } else {
      EndsAlike(s, i + 1, Step(st, s[i]));
    }
  }

  /** Stripping and normalising succeed exactly on text the lexer reads to a clean end, strings and comments closed. */
  lemma NormalizesWhenClean(s: string)
    ensures Strip(s).Some? <==> L.Code(Codes(s), 0, |s|, None).ending == L.Clean
    ensures Normalize(s).Some? <==> L.Code(Codes(s), 0, |s|, None).ending == L.Clean
  {
    NormalizeKeepsInk(s);
    StripKeepsInk(s);
    EndsAlike(s, 0, OUTSIDE);
  }
}
