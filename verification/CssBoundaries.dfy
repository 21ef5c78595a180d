/** Where preludes, declarations and properties end, told of the code bytes by counting them. */
module CssBoundaries {
  import opened Common
  import opened CssLexer

  /** How many of the first `k` code bytes are this one. */
  ghost function Count(b: seq<Byte>, ps: seq<nat>, k: nat, c: Byte): nat
    requires k <= |ps| && InRange(b, ps)
  {
    |set j | 0 <= j < k && b[ps[j]] == c|
  }

  /** As many parentheses closed as opened, and as many brackets. */
  ghost predicate TopLevel(b: seq<Byte>, ps: seq<nat>, k: nat)
    requires k <= |ps| && InRange(b, ps)
  {
    Count(b, ps, k, 0x28) == Count(b, ps, k, 0x29) && Count(b, ps, k, 0x5B) == Count(b, ps, k, 0x5D)
  }

  /** Never more closed than opened, and never more than the limit open. */
  ghost predicate InOrder(b: seq<Byte>, ps: seq<nat>, k: nat, limit: Option<nat>)
    requires k <= |ps| && InRange(b, ps)
  {
    forall j | 0 <= j <= k ::
      && Count(b, ps, j, 0x29) <= Count(b, ps, j, 0x28) && Count(b, ps, j, 0x5D) <= Count(b, ps, j, 0x5B)
      && (limit.Some? ==> Count(b, ps, j, 0x28) <= Count(b, ps, j, 0x29) + limit.value
                          && Count(b, ps, j, 0x5B) <= Count(b, ps, j, 0x5D) + limit.value)
  }

  /** None of the first `k` code bytes is one of these at the top level. */
  ghost predicate NoneBefore(b: seq<Byte>, ps: seq<nat>, k: nat, kinds: set<Byte>)
    requires k <= |ps| && InRange(b, ps)
  {
    forall j | 0 <= j < k :: !(TopLevel(b, ps, j) && b[ps[j]] in kinds)
  }

  /** The first of these bytes at the top level is at `p`, with everything in order up to it. */
  ghost predicate IsFirst(b: seq<Byte>, ps: seq<nat>, p: nat, kinds: set<Byte>, limit: Option<nat>)
    requires InRange(b, ps)
  {
    exists k :: 0 <= k < |ps| && ps[k] == p && TopLevel(b, ps, k) && b[p] in kinds
                && InOrder(b, ps, k, limit) && NoneBefore(b, ps, k, kinds)
  }

  /** There is none, and everything is in order to the end. */
  ghost predicate HasNone(b: seq<Byte>, ps: seq<nat>, kinds: set<Byte>, limit: Option<nat>)
    requires InRange(b, ps)
  {
    InOrder(b, ps, |ps|, limit) && NoneBefore(b, ps, |ps|, kinds)
  }

  lemma {:induction false} CountNext(b: seq<Byte>, ps: seq<nat>, k: nat, c: Byte)
    requires k < |ps| && InRange(b, ps)
    ensures Count(b, ps, k + 1, c) == Count(b, ps, k, c) + (if b[ps[k]] == c then 1 else 0)
  {
    var now, next := set j | 0 <= j < k && b[ps[j]] == c, set j | 0 <= j < k + 1 && b[ps[j]] == c;
    assert next == if b[ps[k]] == c then now + {k} else now;
  }

  lemma {:induction false} DepthCounts(b: seq<Byte>, ps: seq<nat>, k: nat, opening: Byte, closing: Byte)
    requires k <= |ps| && InRange(b, ps) && opening != closing
    ensures Depth(b, ps, k, opening, closing) == Count(b, ps, k, opening) - Count(b, ps, k, closing)
  {
    if k > 0 {
      DepthCounts(b, ps, k - 1, opening, closing);
      CountNext(b, ps, k - 1, opening);
      CountNext(b, ps, k - 1, closing);
    }
  }

  lemma SameLevel(b: seq<Byte>, ps: seq<nat>, k: nat)
    requires k <= |ps| && InRange(b, ps)
    ensures Outermost(b, ps, k) <==> TopLevel(b, ps, k)
  {
    hide Count, Depth;
    DepthCounts(b, ps, k, OPEN_PAREN, CLOSE_PAREN);
    DepthCounts(b, ps, k, OPEN_BRACKET, CLOSE_BRACKET);
  }

  lemma SameOrder(b: seq<Byte>, ps: seq<nat>, k: nat, limit: Option<nat>)
    requires k <= |ps| && InRange(b, ps)
    ensures Nested(b, ps, k, limit) <==> InOrder(b, ps, k, limit)
  {
    hide Count, Depth;
    forall j | 0 <= j <= k
      ensures Parens(b, ps, j) == Count(b, ps, j, 0x28) - Count(b, ps, j, 0x29)
      ensures Brackets(b, ps, j) == Count(b, ps, j, 0x5B) - Count(b, ps, j, 0x5D)
    {
      DepthCounts(b, ps, j, OPEN_PAREN, CLOSE_PAREN);
      DepthCounts(b, ps, j, OPEN_BRACKET, CLOSE_BRACKET);
    }
  }

  lemma SameReach(b: seq<Byte>, ps: seq<nat>, k: nat, kinds: set<Byte>, limit: Option<nat>)
    requires k <= |ps| && InRange(b, ps)
    ensures GetsTo(b, ps, k, kinds, limit) <==> InOrder(b, ps, k, limit) && NoneBefore(b, ps, k, kinds)
  {
    hide Outermost, TopLevel, Nested, InOrder;
    SameOrder(b, ps, k, limit);
    forall j | 0 <= j < k ensures Landing(b, ps, j, kinds) <==> TopLevel(b, ps, j) && b[ps[j]] in kinds {
      SameLevel(b, ps, j);
    }
  }

  /** A scan lands on the first byte of its kinds, or gets to the end exactly when there is none. */
  lemma ScanFinds(b: seq<Byte>, start: nat, end: nat, kinds: set<Byte>, limit: Option<nat>, p: nat)
    requires end <= |b|
    ensures var l := Code(b, start, end, None);
            var r := Scanned(b, start, end, kinds, limit);
            && InRange(b, l.code)
            && (r == Landed(p) <==> IsFirst(b, l.code, p, kinds, limit))
            && (r.RanOut? <==> HasNone(b, l.code, kinds, limit))
            && (r.RanOut? ==> r == RanOut(l.ending, TopLevel(b, l.code, |l.code|)))
  {
    hide Outermost, TopLevel, Nested, InOrder, NoneBefore;
    var ps := Code(b, start, end, None).code;
    LandsOnTheFirst(b, start, end, kinds, limit, p);
    forall k | 0 <= k <= |ps|
      ensures GetsTo(b, ps, k, kinds, limit) <==> InOrder(b, ps, k, limit) && NoneBefore(b, ps, k, kinds)
      ensures Outermost(b, ps, k) <==> TopLevel(b, ps, k)
    {
      SameReach(b, ps, k, kinds, limit);
      SameLevel(b, ps, k);
    }
    StopsAtTheEnd(b, start, end, kinds, limit);
    if IsFirst(b, ps, p, kinds, limit) {
      var k: nat :| k < |ps| && ps[k] == p && TopLevel(b, ps, k) && b[p] in kinds
                    && InOrder(b, ps, k, limit) && NoneBefore(b, ps, k, kinds);
      assert FirstLanding(b, ps, k, p, kinds, limit);
    }
  }

  lemma StopsAtTheEnd(b: seq<Byte>, start: nat, end: nat, kinds: set<Byte>, limit: Option<nat>)
    requires end <= |b|
    ensures var ps := Code(b, start, end, None).code;
            InRange(b, ps) && (Scanned(b, start, end, kinds, limit).RanOut? <==> GetsTo(b, ps, |ps|, kinds, limit))
  {
    var ps := Code(b, start, end, None).code;
    CodeIsInOrder(b, start, end, None);
    StopIsWhereItStops(b, ps, 0, kinds, limit);
    if GetsTo(b, ps, |ps|, kinds, limit) {
      StopIsUnique(b, ps, |ps|, Stop(b, ps, 0, kinds, limit), kinds, limit);
    }
  }

  // ------------------------------------------------------------------- the scanners

  /** A clean end: none of these bytes, nothing open, and no string or comment open either. */
  ghost predicate EndsClean(b: seq<Byte>, l: Lexed, kinds: set<Byte>, limit: Option<nat>)
    requires InRange(b, l.code)
  {
    HasNone(b, l.code, kinds, limit) && TopLevel(b, l.code, |l.code|) && l.ending == Clean
  }

  /**
   * A prelude ends at the first semicolon or brace at the top level of the
   * code, at most 32 deep on the way, if that is a semicolon or opens a block,
   * or at a clean end without any.
   */
  lemma RuleEndsAtFirst(b: seq<Byte>, start: nat, end: nat, p: nat)
    requires end <= |b|
    ensures var l := Code(b, start, end, None);
            var r := RuleBoundaryIn(b, start, end);
            && InRange(b, l.code)
            && (r == Ok(AtSemicolon(p)) <==> IsFirst(b, l.code, p, {0x3B, 0x7B, 0x7D}, Some(32)) && b[p] == 0x3B)
            && (r == Ok(AtBlock(p)) <==> IsFirst(b, l.code, p, {0x3B, 0x7B, 0x7D}, Some(32)) && b[p] == 0x7B)
            && (r == Ok(AtEnd) <==> EndsClean(b, l, {0x3B, 0x7B, 0x7D}, Some(32)))
  {
    hide Scanned, Code, IsFirst, HasNone, TopLevel;
    var stopped := Scanned(b, start, end, RULE_KINDS, Some(32));
    ScanFinds(b, start, end, RULE_KINDS, Some(32), p);
    if stopped.Landed? { ScanFinds(b, start, end, RULE_KINDS, Some(32), stopped.at); }
  }

  /** A declaration ends at the first semicolon or brace at the top level, if that is a semicolon, or at a clean end. */
  lemma DeclarationEndsAtFirst(b: seq<Byte>, start: nat, end: nat, p: nat)
    requires start <= end <= |b|
    ensures var l := Code(b, start, end, None);
            && InRange(b, l.code)
            && (DeclarationEnd(b, start, end) == Ok(p) <==>
                  || (IsFirst(b, l.code, p, {0x3B, 0x7B, 0x7D}, Some(32)) && b[p] == 0x3B)
                  || (p == end && EndsClean(b, l, {0x3B, 0x7B, 0x7D}, Some(32))))
  {
    hide Scanned, Code, IsFirst, HasNone, TopLevel;
    var stopped := Scanned(b, start, end, DECLARATION_KINDS, Some(32));
    LandsInside(b, start, end, DECLARATION_KINDS, Some(32));
    ScanFinds(b, start, end, DECLARATION_KINDS, Some(32), p);
    if stopped.Landed? { ScanFinds(b, start, end, DECLARATION_KINDS, Some(32), stopped.at); }
  }

  /** The colon is the first at the top level, however deep the nesting; there is none if no comment stays open. */
  lemma ColonIsFirst(b: seq<Byte>, start: nat, end: nat, p: nat)
    requires end <= |b|
    ensures var l := Code(b, start, end, None);
            var r := TopLevelColon(b, start, end);
            && InRange(b, l.code)
            && (r == Ok(Some(p)) <==> IsFirst(b, l.code, p, {0x3A}, None))
            && (r == Ok(None) <==> HasNone(b, l.code, {0x3A}, None) && l.ending != OpenComment)
  {
    hide Scanned, Code, IsFirst, HasNone, TopLevel;
    ScanFinds(b, start, end, COLON_KINDS, None, p);
  }

  /** The brace that closes a block is the first before which as many are opened as closed, at most 14 at a time. */
  lemma BlockEndsAtFirst(b: seq<Byte>, open: nat, end: nat, p: nat)
    requires end <= |b|
    ensures var ps := Code(b, open + 1, end, None).code;
            && InRange(b, ps)
            && (MatchingBrace(b, open, end) == Ok(p) <==>
                  exists k :: 0 <= k < |ps| && ps[k] == p && b[p] == 0x7D
                              && Count(b, ps, k, 0x7B) == Count(b, ps, k, 0x7D) && Balances(b, ps, k))
  {
    hide Code, Count, Depth;
    var ps := Code(b, open + 1, end, None).code;
    MatchesTheBlock(b, open, end, p);
    forall j | 0 <= j <= |ps| ensures Braces(b, ps, j) == 1 + Count(b, ps, j, 0x7B) - Count(b, ps, j, 0x7D) {
      DepthCounts(b, ps, j, OPEN_BRACE, CLOSE_BRACE);
    }
    forall k | 0 <= k < |ps|
      ensures Closes(b, ps, k, ps[k]) <==>
                b[ps[k]] == 0x7D && Count(b, ps, k, 0x7B) == Count(b, ps, k, 0x7D) && Balances(b, ps, k)
    {
      ByOne(b, ps, k);
    }
  }

  /** Up to here never more braces closed than opened, nor 14 more opened than closed. */
  ghost predicate Balances(b: seq<Byte>, ps: seq<nat>, k: nat)
    requires k <= |ps| && InRange(b, ps)
  {
    forall j | 0 <= j <= k ::
      Count(b, ps, j, 0x7D) <= Count(b, ps, j, 0x7B) < Count(b, ps, j, 0x7D) + 14
  }
}
