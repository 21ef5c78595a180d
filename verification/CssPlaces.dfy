/**
 * Where the declarations of a stylesheet stand: a scan of a block sees what a
 * scan of the whole stylesheet sees there, so what the blocks are cut at, and
 * where declarations start, is code of the stylesheet.
 */
module CssPlaces {
  import opened Common
  import opened CssLexer
  import opened CssGrammar
  import opened CssNormalize
  import P = CssPositions
  import Utf8
  import T = CssText
  import C = CssCollapse

  // ---------------------------------------------------- scanning a part, scanning all

  /** What a scan still has ahead of it once it has got somewhere. */
  ghost predicate LeftOf(l: Lexed, l': Lexed) {
    exists k | 0 <= k <= |l.code| :: l' == Lexed(l.code[k..], l.ending)
  }

  lemma {:induction false} LeftOfLeft(l: Lexed, m: Lexed, r: Lexed)
    requires LeftOf(l, m) && LeftOf(m, r)
    ensures LeftOf(l, r)
  {
    var j :| 0 <= j <= |l.code| && m == Lexed(l.code[j..], l.ending);
    var k :| 0 <= k <= |m.code| && r == Lexed(m.code[k..], m.ending);
    assert l.code[j..][k..] == l.code[j + k..];
  }

  lemma LeftOfSelf(l: Lexed)
    ensures LeftOf(l, l)
  {
    assert l.code[0..] == l.code;
  }

  lemma FirstIsCode(l: Lexed, p: nat, rest: Lexed)
    requires LeftOf(l, Lexed([p] + rest.code, rest.ending))
    ensures p in l.code && LeftOf(l, rest)
  {
    var k :| 0 <= k <= |l.code| && Lexed([p] + rest.code, rest.ending) == Lexed(l.code[k..], l.ending);
    assert l.code[k] == ([p] + rest.code)[0] == p;
    assert l.code[k + 1..] == l.code[k..][1..] == ([p] + rest.code)[1..] == rest.code;
  }

  /** A region that a scan of the whole may be cut at: no comment starts across its end. */
  predicate CutWell(b: seq<Byte>, end: nat) { end <= |b| && (end == |b| || b[end] != STAR) }

  /** The scan of the whole comes to this place outside strings and comments. */
  ghost predicate Reached(b: seq<Byte>, i: nat) {
    LeftOf(Code(b, 0, |b|, None), Code(b, i, |b|, None))
  }

  /** This place is code of the whole. */
  predicate IsCode(b: seq<Byte>, i: nat) { i in Code(b, 0, |b|, None).code }

  lemma {:induction false} CommentEndsAlike(b: seq<Byte>, from: nat, end: nat)
    requires end <= |b| && CommentEnd(b, from, end).Some?
    ensures CommentEnd(b, from, |b|) == CommentEnd(b, from, end)
    decreases if from < end then end - from else 0
  {
    if !(b[from] == STAR && b[from + 1] == SLASH) { CommentEndsAlike(b, from + 1, end); }
  }

  lemma ReachedByte(b: seq<Byte>, i: nat)
    requires i < |b| && Reached(b, i) && !IsQuote(b[i]) && !OpensComment(b, i, |b|)
    ensures IsCode(b, i) && Reached(b, i + 1)
  {
    FirstIsCode(Code(b, 0, |b|, None), i, Code(b, i + 1, |b|, None));
  }

  lemma ByteLeads(b: seq<Byte>, i: nat, p: nat)
    requires i < |b| && !IsQuote(b[i]) && !OpensComment(b, i, |b|)
    requires LeftOf(Code(b, i + 1, |b|, None), Code(b, p, |b|, None))
    ensures LeftOf(Code(b, i, |b|, None), Code(b, p, |b|, None))
  {
    LeftOfSelf(Code(b, i, |b|, None));
    FirstIsCode(Code(b, i, |b|, None), i, Code(b, i + 1, |b|, None));
    LeftOfLeft(Code(b, i, |b|, None), Code(b, i + 1, |b|, None), Code(b, p, |b|, None));
  }

  /** What is code of a part of the text is what the scan of all of it comes to as well. */
  lemma {:induction false} PartIsScanned(b: seq<Byte>, i: nat, end: nat, quote: Option<Byte>, p: nat)
    requires CutWell(b, end) && p in Code(b, i, end, quote).code
    ensures LeftOf(Code(b, i, |b|, quote), Code(b, p, |b|, None))
    ensures p < end && !IsQuote(b[p]) && !OpensComment(b, p, |b|)
    decreases if i < end then end - i else 0
  {
    hide LeftOf;
    if quote.Some? {
      if b[i] == BACKSLASH { PartIsScanned(b, i + 2, end, quote, p); }
      else { PartIsScanned(b, i + 1, end, if b[i] == quote.value then None else quote, p); }
    } else if OpensComment(b, i, end) {
      CommentEndsAlike(b, i + 2, end);
      PartIsScanned(b, CommentEnd(b, i + 2, end).value, end, None, p);
    } else if IsQuote(b[i]) {
      PartIsScanned(b, i + 1, end, Some(b[i]), p);
    } else {
      if p == i { LeftOfSelf(Code(b, i, |b|, None)); } else {
        PartIsScanned(b, i + 1, end, None, p);
        ByteLeads(b, i, p);
      }
    }
  }

  lemma PartIsCode(b: seq<Byte>, start: nat, end: nat, p: nat)
    requires CutWell(b, end) && Reached(b, start) && p in Code(b, start, end, None).code
    ensures Reached(b, p) && IsCode(b, p) && Reached(b, p + 1)
  {
    PartIsScanned(b, start, end, None, p);
    LeftOfLeft(Code(b, 0, |b|, None), Code(b, start, |b|, None), Code(b, p, |b|, None));
    ReachedByte(b, p);
  }

  lemma {:induction false} BlankIsScanned(b: seq<Byte>, start: nat, end: nat)
    requires start <= end && CutWell(b, end) && Reached(b, start)
    ensures SkipBlank(b, start, end).Some? ==> Reached(b, SkipBlank(b, start, end).value)
    decreases end - start
  {
    if start < end {
      if IsBlankByte(b[start]) {
        ReachedByte(b, start);
        BlankIsScanned(b, start + 1, end);
      } else if OpensComment(b, start, end) {
        var e := CommentEnd(b, start + 2, end);
        if e.Some? {
          CommentEndsAlike(b, start + 2, end);
          BlankIsScanned(b, e.value, end);
        }
      }
    }
  }

  lemma LandingIsCode(b: seq<Byte>, start: nat, end: nat, kinds: set<Byte>, limit: Option<nat>, p: nat)
    requires CutWell(b, end) && Reached(b, start) && Scanned(b, start, end, kinds, limit) == Landed(p)
    ensures IsCode(b, p) && Reached(b, p) && Reached(b, p + 1)
  {
    LandsOnTheFirst(b, start, end, kinds, limit, p);
    var ps := Code(b, start, end, None).code;
    var k: nat :| FirstLanding(b, ps, k, p, kinds, limit);
    assert ps[k] in ps;
    PartIsCode(b, start, end, p);
  }

  // ------------------------------------------------------------------ rules and segments

  lemma BoundaryIsCode(b: seq<Byte>, start: nat, end: nat)
    requires CutWell(b, end) && Reached(b, start)
    ensures var r := RuleBoundaryIn(b, start, end);
            r.Ok? && !r.value.AtEnd? ==> IsCode(b, r.value.at) && Reached(b, r.value.at + 1)
  {
    var stopped := Scanned(b, start, end, RULE_KINDS, Some(MAX_COMPONENT_DEPTH));
    if stopped.Landed? { LandingIsCode(b, start, end, RULE_KINDS, Some(MAX_COMPONENT_DEPTH), stopped.at); }
  }

  /** The code of a part is where the code of all that follows begins. */
  lemma {:induction false} PartComesFirst(b: seq<Byte>, i: nat, end: nat, quote: Option<Byte>)
    requires CutWell(b, end)
    ensures Code(b, i, end, quote).code <= Code(b, i, |b|, quote).code
    decreases if i < end then end - i else 0
  {
    if i < end {
      if quote.Some? {
        if b[i] == BACKSLASH { PartComesFirst(b, i + 2, end, quote); }
        else { PartComesFirst(b, i + 1, end, if b[i] == quote.value then None else quote); }
      } else if OpensComment(b, i, end) {
        if CommentEnd(b, i + 2, end).Some? {
          CommentEndsAlike(b, i + 2, end);
          PartComesFirst(b, CommentEnd(b, i + 2, end).value, end, None);
        }
      } else if IsQuote(b[i]) {
        PartComesFirst(b, i + 1, end, Some(b[i]));
      } else {
        PartComesFirst(b, i + 1, end, None);
      }
    }
  }

  lemma {:induction false} SameDepth(b: seq<Byte>, ps: seq<nat>, qs: seq<nat>, k: nat)
    requires InRange(b, qs) && ps <= qs && k <= |ps|
    ensures InRange(b, ps) && Braces(b, ps, k) == Braces(b, qs, k)
  {
    if k > 0 { SameDepth(b, ps, qs, k - 1); }
  }

  /** The brace that closes a block within a region is the one that closes it in the stylesheet. */
  lemma CloseIsCode(b: seq<Byte>, open: nat, end: nat)
    requires CutWell(b, end) && Reached(b, open + 1)
    ensures var r := MatchingBrace(b, open, end);
            r.Ok? ==>
              && IsCode(b, r.value) && CutWell(b, r.value) && Reached(b, r.value + 1)
              && MatchingBrace(b, open, |b|) == r
  {
    var r := MatchingBrace(b, open, end);
    if r.Ok? {
      var ps, qs := Code(b, open + 1, end, None).code, Code(b, open + 1, |b|, None).code;
      MatchesTheBlock(b, open, end, r.value);
      MatchesTheBlock(b, open, |b|, r.value);
      var k: nat :| Closes(b, ps, k, r.value);
      assert ps[k] in ps;
      PartIsCode(b, open + 1, end, r.value);
      PartComesFirst(b, open + 1, end, None);
      forall j: nat | j <= k + 1 ensures Braces(b, ps, j) == Braces(b, qs, j) { SameDepth(b, ps, qs, j); }
      assert Closes(b, qs, k, r.value);
    }
  }

  lemma {:induction false} SegmentIsReached(b: seq<Byte>, cursor: nat, end: nat, start: nat)
    requires CutWell(b, end) && Reached(b, cursor) && SegmentStarts(b, cursor, end, start)
    ensures start < end && Solid(b, start, end) && Reached(b, start)
    decreases if cursor < end then end - cursor else 0
  {
    BlankIsScanned(b, cursor, end);
    var at := SkipBlank(b, cursor, end).value;
    if start != at {
      var segmentEnd := DeclarationEnd(b, at, end).value;
      if segmentEnd < end { LandingIsCode(b, at, end, DECLARATION_KINDS, Some(MAX_COMPONENT_DEPTH), segmentEnd); }
      SegmentIsReached(b, segmentEnd + 1, end, start);
    }
  }

  /** A rule is cut out of the stylesheet by its braces, which are code of it and match in it. */
  ghost predicate WellPlaced(b: seq<Byte>, x: Rule) {
    && x.start <= x.open < x.close < |b| && Reached(b, x.start) && Reached(b, x.open + 1)
    && IsCode(b, x.open) && b[x.open] == OPEN_BRACE
    && IsCode(b, x.close) && MatchingBrace(b, x.open, |b|) == Ok(x.close)
  }

  lemma {:induction false} RuleIsWellPlaced(s: string, b: seq<Byte>, cursor: nat, end: nat, x: Rule)
    requires cursor <= end && CutWell(b, end) && Reached(b, cursor) && RuleStands(s, b, cursor, end, x)
    ensures WellPlaced(b, x)
    decreases end - cursor
  {
    hide HoldsRules, IsCode, Reached;
    BlankIsScanned(b, cursor, end);
    var at := SkipBlank(b, cursor, end).value;
    BoundaryIsCode(b, at, end);
    match RuleBoundaryIn(b, at, end).value
    case AtSemicolon(position) => RuleIsWellPlaced(s, b, position + 1, end, x);
    case AtBlock(open) =>
      CloseIsCode(b, open, end);
      var close := MatchingBrace(b, open, end).value;
      StandsFromBlock(s, b, cursor, at, open, close, end, x);
      if x == Rule(at, open, close) {
      } else if RuleStands(s, b, close + 1, end, x) {
        RuleIsWellPlaced(s, b, close + 1, end, x);
      } else {
        RuleIsWellPlaced(s, b, open + 1, close, x);
      }
  }

  // --------------------------------------------------------------------- where it starts

  /** What begins with a quote is no property. */
  lemma {:induction false} QuotedIsNoProperty(s: string)
    requires s != "" && T.IsQuote(s[0])
    ensures NormalizeProperty(s).Err?
  {
    assert T.StripFrom(s, 0, "") == T.StripFrom(s, 1, "" + [s[0]]);
    StripGoesOn(s, 1, [s[0]]);
    if T.Strip(s).Some? {
      var t := T.Strip(s).value;
      assert t[0] == s[0] && C.TrimStart(t) == t;
      TrimEndKeepsFirst(t);
      assert !PropertyChar(C.Trim(t)[0]);
    }
  }

  lemma {:induction false} StripGoesOn(s: string, i: nat, out: string)
    requires i <= |s|
    ensures T.StripFrom(s, i, out).Some? ==> out <= T.StripFrom(s, i, out).value
    decreases |s| - i
  {
    if i < |s| {
      if T.StateAfter(out).quote.None? && T.OpensComment(s, i) {
        var e := T.CommentEnd(s, i + 2);
        if e.Some? { StripGoesOn(s, e.value, if T.EndsInSpace(out) then out else out + " "); }
      } else {
        StripGoesOn(s, i + 1, out + [s[i]]);
      }
    }
  }

  lemma {:induction false} TrimEndKeepsFirst(t: string)
    requires t != "" && !IsWhitespace(t[0])
    ensures C.TrimEnd(t) != "" && C.TrimEnd(t)[0] == t[0]
  {
    if IsWhitespace(t[|t| - 1]) { TrimEndKeepsFirst(t[..|t| - 1]); }
  }

  /** A segment that says a declaration does not start with a quote. */
  lemma {:induction false} SaidUnquoted(s: string, end: nat, d: Declaration)
    requires end <= |Utf8.Encode(s)| && SegmentSays(s, Utf8.Encode(s), end, d)
    ensures !IsQuote(Utf8.Encode(s)[d.offset])
  {
    var b := Utf8.Encode(s);
    if IsQuote(b[d.offset]) {
      var i := P.AsciiIsWhole(s, d.offset);
      CharIndexOf(s, i, d.offset);
      var segmentEnd := DeclarationEnd(b, d.offset, end).value;
      var colon := TopLevelColon(b, d.offset, segmentEnd).value.value;
      var text := Slice(s, d.offset, colon);
      PropertyIsSaid(text, d.property);
      if text != "" { QuotedIsNoProperty(text); }
    }
  }

  lemma FromTheTop(b: seq<Byte>)
    ensures Reached(b, 0)
  {
    LeftOfSelf(Code(b, 0, |b|, None));
  }

  lemma {:induction false} SegmentsAfter(b: seq<Byte>, cursor: nat, end: nat, start: nat)
    requires end <= |b| && SegmentStarts(b, cursor, end, start)
    ensures cursor <= start
    decreases if cursor < end then end - cursor else 0
  {
    var at := SkipBlank(b, cursor, end).value;
    if start != at { SegmentsAfter(b, DeclarationEnd(b, at, end).value + 1, end, start); }
  }

  /** A byte that is solid up to a closing brace is solid in the whole. */
  lemma SolidIsCode(b: seq<Byte>, start: nat, end: nat)
    requires start < end < |b| && Solid(b, start, end) && b[end] == CLOSE_BRACE
    requires Reached(b, start) && !IsQuote(b[start])
    ensures IsCode(b, start)
  {
    hide IsCode, Reached;
    ReachedByte(b, start);
  }

  lemma {:induction false} StartIsCode(s: string, x: Rule, d: Declaration)
    requires var b := Utf8.Encode(s); WellPlaced(b, x) && Declares(s, b, x, d)
    ensures x.open < d.offset < x.close && IsCode(Utf8.Encode(s), d.offset)
  {
    hide SegmentStarts, SegmentSays, IsCode, Reached, IsAtRule, NormalizeSelector, Solid;
    var b := Utf8.Encode(s);
    SegmentIsReached(b, x.open + 1, x.close, d.offset);
    SegmentsAfter(b, x.open + 1, x.close, d.offset);
    SaidUnquoted(s, x.close, d);
    SolidIsCode(b, d.offset, x.close);
  }

  /**
   * A written declaration starts at a code byte of the stylesheet, outside
   * strings and comments, between the braces of the rule with its selector;
   * these are code too, and match each other in the stylesheet.
   */
  lemma WrittenIsCode(s: string, d: Declaration) returns (x: Rule)
    requires Written(s, d)
    ensures var b := Utf8.Encode(s);
            && WellPlaced(b, x) && Declares(s, b, x, d)
            && x.open < d.offset < x.close && IsCode(b, d.offset)
  {
    hide RuleStands, Declares, WellPlaced, IsCode, Reached;
    var b := Utf8.Encode(s);
    x :| RuleStands(s, b, 0, |b|, x) && Declares(s, b, x, d);
    FromTheTop(b);
    RuleIsWellPlaced(s, b, 0, |b|, x);
    StartIsCode(s, x, d);
  }
}
