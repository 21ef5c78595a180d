/**
 * What a stylesheet means to the reader: which rules and declarations a region
 * of bytes holds, within the budgets, and where each declaration starts.
 */
module CssGrammar {
  import opened Common
  import opened CssLexer
  import opened CssNormalize
  import P = CssPositions
  import Utf8

  const MAX_CSS_FILE_BYTES := 512 * 1024
  const MAX_PARSED_RULES := 512
  const MAX_PARSED_DECLARATIONS := 4096

  const NESTED_RULES := {"media", "supports"}
  const SKIPPED_RULES :=
    {"font-face", "keyframes", "-webkit-keyframes", "page", "property", "counter-style", "font-feature-values"}

  /** A parsed declaration; `offset` is the byte its position was taken of. */
  datatype Declaration = Declaration(
    selector: string, property: string, value: string, important: bool, position: P.Position, offset: nat)

  // ----------------------------------------------------------------------- slices

  /** How many characters start before a byte offset. */
  function CharIndex(s: string, offset: nat): (i: nat)
    ensures i <= |s|
  {
    if s == "" || offset < |Utf8.EncodeChar(s[0])| then 0 else 1 + CharIndex(s[1..], offset - |Utf8.EncodeChar(s[0])|)
  }

  lemma {:induction false} CharIndexOf(s: string, i: nat, offset: nat)
    requires P.StartsAt(s, i, offset)
    ensures CharIndex(s, offset) == i
  {
    if i == 0 {
      assert s[..0] == "";
    } else {
      P.PrefixShift(s, i - 1);
      CharIndexOf(s[1..], i - 1, offset - |Utf8.EncodeChar(s[0])|);
    }
  }

  /** The text between two byte offsets, when they are character boundaries in order. */
  function Slice(s: string, from: nat, to: nat): string {
    if CharIndex(s, from) <= CharIndex(s, to) then s[CharIndex(s, from)..CharIndex(s, to)] else ""
  }

  lemma SliceInRange(s: string, from: nat, to: nat)
    requires from <= to && P.Boundary(s, from) && P.Boundary(s, to)
    ensures CharIndex(s, from) <= CharIndex(s, to) <= |s|
  {
    var i, j := P.IndexAt(s, from), P.IndexAt(s, to);
    CharIndexOf(s, i, from);
    CharIndexOf(s, j, to);
    if j < i { P.OffsetsIncrease(s, j, i); }
  }

  /** A slice is the characters whose bytes lie between the offsets. */
  lemma SliceEncodes(s: string, from: nat, to: nat)
    requires from <= to && P.Boundary(s, from) && P.Boundary(s, to)
    ensures to <= |Utf8.Encode(s)| && Utf8.Encode(Slice(s, from, to)) == Utf8.Encode(s)[from..to]
  {
    var i, j := P.IndexAt(s, from), P.IndexAt(s, to);
    CharIndexOf(s, i, from);
    CharIndexOf(s, j, to);
    SliceInRange(s, from, to);
    P.EncodeSplit(s, j);
    P.EncodeSplit(s[..j], i);
    assert s[..j][..i] == s[..i] && s[..j][i..] == s[i..j];
  }

  lemma EdgesOfAscii(s: string, at: nat)
    requires at < |Utf8.Encode(s)| && Utf8.Encode(s)[at] < 0x80
    ensures P.Boundary(s, at) && P.Boundary(s, at + 1)
  {
    var i := P.AsciiIsWhole(s, at);
  }

  lemma Ends(s: string)
    ensures P.Boundary(s, 0) && P.Boundary(s, |Utf8.Encode(s)|)
  {
    assert s[..0] == "" && s[..|s|] == s;
    assert P.StartsAt(s, 0, 0) && P.StartsAt(s, |s|, |Utf8.Encode(s)|);
  }

  // ------------------------------------------------------------- blanks and comments

  /** Not whitespace and not the start of a comment. */
  predicate Solid(b: seq<Byte>, i: nat, end: nat)
    requires i < end <= |b|
  {
    !IsBlankByte(b[i]) && !OpensComment(b, i, end)
  }

  /** The first solid byte, or the end; always just after an ASCII byte or where it started. */
  function SkipBlank(b: seq<Byte>, start: nat, end: nat): (r: Option<nat>)
    requires start <= end <= |b|
    ensures r.Some? ==>
              && start <= r.value <= end && (r.value < end ==> Solid(b, r.value, end))
              && (r.value == start || b[r.value - 1] < 0x80)
    decreases end - start
  {
    if start == end then Some(start)
    else if IsBlankByte(b[start]) then SkipBlank(b, start + 1, end)
    else if OpensComment(b, start, end) then
      (match CommentEnd(b, start + 2, end)
       case None => None
       case Some(e) => SkipBlank(b, e, end))
    else Some(start)
  }

  // ------------------------------------------------------------------- declarations

  /** Rules counted and declarations found so far. */
  datatype Progress = Progress(rules: nat, output: seq<Declaration>)

  /** One declaration: both sides normalised, positioned at its first byte, within the budget. */
  function DeclarationIn(s: string, start: nat, colon: nat, end: nat, selector: string, p: Progress): Result<Progress,
                         Refusal> {
    match NormalizeProperty(Slice(s, start, colon))
    case Err(refusal) => Err(refusal)
    case Ok(property) =>
      match NormalizeValue(Slice(s, colon + 1, end))
      case Err(refusal) => Err(refusal)
      case Ok((value, important)) =>
        if |p.output| >= MAX_PARSED_DECLARATIONS then Err(Limit)
        else
          Ok(p.(output := p.output
                 + [Declaration(selector, property, value, important, P.PositionAt(s, CharIndex(s, start)), start)]))
  }

  /** A segment, given its end and its colon: a declaration, or nothing if there is no text. */
  function SegmentBy(s: string, start: nat, colon: Option<nat>, segmentEnd: nat, end: nat, selector: string,
                     p: Progress)
    : (r: Result<(Progress, nat), Refusal>)
    requires start <= segmentEnd && (colon.Some? ==> start <= colon.value < segmentEnd)
    ensures r.Ok? ==> start < r.value.1
  {
    match colon
    case None => if Blank(Slice(s, start, segmentEnd)) then Ok((p, segmentEnd + 1)) else Err(Unsupported)
    case Some(at) =>
      match DeclarationIn(s, start, at, segmentEnd, selector, p)
      case Err(refusal) => Err(refusal)
      case Ok(p') => Ok((p', if segmentEnd < end then segmentEnd + 1 else segmentEnd))
  }

  /** The segment from a solid byte to its semicolon or the end of the block, and where the next one starts. */
  function SegmentAt(s: string, b: seq<Byte>, start: nat, end: nat, selector: string, p: Progress)
    : (r: Result<(Progress, nat), Refusal>)
    requires start < end <= |b|
    ensures r.Ok? ==> start < r.value.1
  {
    match DeclarationEnd(b, start, end)
    case Err(refusal) => Err(refusal)
    case Ok(segmentEnd) =>
      match TopLevelColon(b, start, segmentEnd)
      case Err(refusal) => Err(refusal)
      case Ok(colon) => SegmentBy(s, start, colon, segmentEnd, end, selector, p)
  }

  lemma SegmentIsBy(s: string, b: seq<Byte>, start: nat, end: nat, selector: string, p: Progress)
    requires start < end <= |b|
    ensures DeclarationEnd(b, start, end).Err? ==>
              SegmentAt(s, b, start, end, selector, p) == Err(DeclarationEnd(b, start, end).error)
    ensures DeclarationEnd(b, start, end).Ok? ==>
              var segmentEnd := DeclarationEnd(b, start, end).value;
              var colon := TopLevelColon(b, start, segmentEnd);
              SegmentAt(s, b, start, end, selector, p)
              == if colon.Err? then Err(colon.error)
                 else SegmentBy(s, start, colon.value, segmentEnd, end, selector, p)
  {
  }

  /** Every segment of a block in turn. */
  function DeclarationsFrom(s: string, b: seq<Byte>, cursor: nat, end: nat, selector: string,
                            p: Progress): Result<Progress, Refusal>
    requires end <= |b|
    decreases if cursor < end then end - cursor else 0
  {
    if cursor >= end then Ok(p)
    else
      match SkipBlank(b, cursor, end)
      case None => Err(Invalid)
      case Some(at) =>
        if at == end then Ok(p)
        else
          match SegmentAt(s, b, at, end, selector, p)
          case Err(refusal) => Err(refusal)
          case Ok((p', next)) => DeclarationsFrom(s, b, next, end, selector, p')
  }

  // -------------------------------------------------------------------------- rules

  function OneRule(p: Progress): Result<Progress, Refusal> {
    if p.rules >= MAX_PARSED_RULES then Err(Limit) else Ok(p.(rules := p.rules + 1))
  }

  /** A statement without a block: only `@charset` is let through. */
  function StatementIn(s: string, start: nat, end: nat, p: Progress): Result<Progress, Refusal> {
    match NormalizePrelude(Slice(s, start, end))
    case Err(refusal) => Err(refusal)
    case Ok(prelude) =>
      if !IsAtRule(prelude) then Err(Unsupported)
      else
        match OneRule(p)
        case Err(refusal) => Err(refusal)
        case Ok(p') =>
          var name := AtRuleName(prelude);
          if name.Some? && Lower(name.value) == "charset" then Ok(p') else Err(Unsupported)
  }

  /** The block of an at-rule: nested rules, or something skipped. */
  function NamedBlock(s: string, b: seq<Byte>, name: Option<string>, open: nat, close: nat, depth: nat,
                      p: Progress): Result<Progress, Refusal>
    requires open < close < |b|
    decreases close - open, 0
  {
    match name
    case None => Err(Unsupported)
    case Some(word) =>
      if Lower(word) in NESTED_RULES then RuleList(s, b, open + 1, close, depth + 1, p)
      else if Lower(word) in SKIPPED_RULES then Ok(p)
      else Err(Unsupported)
  }

  /** The block of a selector: its declarations. */
  function SelectorBlock(s: string, b: seq<Byte>, selector: Option<string>, open: nat, close: nat,
                         p: Progress): Result<Progress, Refusal>
    requires open < close < |b|
  {
    match selector
    case None => Err(Unsupported)
    case Some(normal) => DeclarationsFrom(s, b, open + 1, close, normal, p)
  }

  /** What is between the braces. */
  function BlockOf(s: string, b: seq<Byte>, prelude: string, open: nat, close: nat, depth: nat,
                   p: Progress): Result<Progress, Refusal>
    requires open < close < |b|
    decreases close - open, 1
  {
    if IsAtRule(prelude) then NamedBlock(s, b, AtRuleName(prelude), open, close, depth, p)
    else SelectorBlock(s, b, NormalizeSelector(prelude), open, close, p)
  }

  function BlockIn(s: string, b: seq<Byte>, start: nat, open: nat, close: nat, depth: nat,
                   p: Progress): Result<Progress, Refusal>
    requires start <= open < close < |b|
    decreases close - open, 2
  {
    match NormalizePrelude(Slice(s, start, open))
    case Err(refusal) => Err(refusal)
    case Ok(prelude) => BlockOf(s, b, prelude, open, close, depth, p)
  }

  /** A block and what is behind it, given where it closes. */
  function BracesAt(s: string, b: seq<Byte>, start: nat, open: nat, close: Result<nat, Refusal>, depth: nat,
                    p: Progress)
    : (r: Result<(Progress, nat), Refusal>)
    requires start <= open && (close.Ok? ==> open < close.value < |b|)
    ensures r.Ok? ==> close.Ok? && r.value.1 == close.value + 1
    decreases if close.Ok? then close.value - open else 0, 3
  {
    match close
    case Err(refusal) => Err(refusal)
    case Ok(at) =>
      match BlockIn(s, b, start, open, at, depth, p)
      case Err(refusal) => Err(refusal)
      case Ok(p') => Ok((p', at + 1))
  }

  /** A prelude and its block: the rule counts before its block is looked for. */
  function BlockAt(s: string, b: seq<Byte>, start: nat, open: nat, end: nat, depth: nat, p: Progress)
    : (r: Result<(Progress, nat), Refusal>)
    requires start <= open < end <= |b|
    ensures r.Ok? ==> open < r.value.1 <= end
    decreases end - start, 1
  {
    match OneRule(p)
    case Err(refusal) => Err(refusal)
    case Ok(p') => BracesAt(s, b, start, open, MatchingBrace(b, open, end), depth, p')
  }

  /** One rule or statement, given what ends its prelude. */
  function RuleBy(s: string, b: seq<Byte>, start: nat, boundary: RuleBoundary, end: nat, depth: nat, p: Progress)
    : (r: Result<(Progress, nat), Refusal>)
    requires start < end <= |b| && (boundary.AtEnd? || start <= boundary.at < end)
    ensures r.Ok? ==> start < r.value.1 <= end
    decreases end - start, 2
  {
    match boundary
    case AtEnd => if Blank(Slice(s, start, end)) then Ok((p, end)) else Err(Invalid)
    case AtSemicolon(position) =>
      (match StatementIn(s, start, position, p)
       case Err(refusal) => Err(refusal)
       case Ok(p') => Ok((p', position + 1)))
    case AtBlock(open) => BlockAt(s, b, start, open, end, depth, p)
  }

  /** One rule or statement, and where the next one starts. */
  function RuleAt(s: string, b: seq<Byte>, start: nat, end: nat, depth: nat,
                  p: Progress): (r: Result<(Progress, nat), Refusal>)
    requires start < end <= |b|
    ensures r.Ok? ==> start < r.value.1 <= end
    decreases end - start, 3
  {
    match RuleBoundaryIn(b, start, end)
    case Err(refusal) => Err(refusal)
    case Ok(boundary) => RuleBy(s, b, start, boundary, end, depth, p)
  }

  /** Every rule of a region in turn. */
  function RulesFrom(s: string, b: seq<Byte>, cursor: nat, end: nat, depth: nat, p: Progress): Result<Progress, Refusal>
    requires cursor <= end <= |b|
    decreases end - cursor, 4
  {
    match SkipBlank(b, cursor, end)
    case None => Err(Invalid)
    case Some(at) =>
      if at == end then Ok(p)
      else
        match RuleAt(s, b, at, end, depth, p)
        case Err(refusal) => Err(refusal)
        case Ok((p', next)) => RulesFrom(s, b, next, end, depth, p')
  }

  function RuleList(s: string, b: seq<Byte>, start: nat, end: nat, depth: nat, p: Progress): Result<Progress, Refusal>
    requires start <= end <= |b|
    decreases end - start, 5
  {
    if depth > MAX_PARSE_DEPTH then Err(Limit) else RulesFrom(s, b, start, end, depth, p)
  }

  /** What a stylesheet parses to. */
  function Stylesheet(s: string): Result<Progress, Refusal> {
    var b := Utf8.Encode(s);
    if |b| > MAX_CSS_FILE_BYTES then Err(Limit) else RuleList(s, b, 0, |b|, 0, Progress(0, []))
  }

  // ------------------------------------------------------------------ one at a time

  /** Skipping is done once: from where it stops there is nothing left to skip. */
  lemma {:induction false} BlankIsNothing(b: seq<Byte>, start: nat, end: nat)
    requires start <= end <= |b|
    ensures SkipBlank(b, start, end).Some? ==>
              SkipBlank(b, SkipBlank(b, start, end).value, end) == SkipBlank(b, start, end)
    decreases end - start
  {
    if start < end {
      if IsBlankByte(b[start]) { BlankIsNothing(b, start + 1, end); }
      else if OpensComment(b, start, end) {
        var e := CommentEnd(b, start + 2, end);
        if e.Some? { BlankIsNothing(b, e.value, end); }
      }
    }
  }

  lemma SegmentsEnd(s: string, b: seq<Byte>, start: nat, end: nat, selector: string, p: Progress)
    requires end <= |b| && start >= end
    ensures DeclarationsFrom(s, b, start, end, selector, p) == Ok(p)
  {
  }

  lemma SegmentsSkip(s: string, b: seq<Byte>, start: nat, end: nat, selector: string, p: Progress)
    requires start < end <= |b|
    ensures DeclarationsFrom(s, b, start, end, selector, p) ==
            match SkipBlank(b, start, end)
            case None => Err(Invalid)
            case Some(at) => DeclarationsFrom(s, b, at, end, selector, p)
  {
    hide SegmentAt;
    BlankIsNothing(b, start, end);
  }

  lemma SegmentsGoOn(s: string, b: seq<Byte>, start: nat, end: nat, selector: string, p: Progress)
    requires start < end <= |b| && SkipBlank(b, start, end) == Some(start)
    ensures DeclarationsFrom(s, b, start, end, selector, p) ==
            match SegmentAt(s, b, start, end, selector, p)
            case Err(refusal) => Err(refusal)
            case Ok((p', next)) => DeclarationsFrom(s, b, next, end, selector, p')
  {
  }

  lemma RulesSkip(s: string, b: seq<Byte>, start: nat, end: nat, depth: nat, p: Progress)
    requires start <= end <= |b|
    ensures RulesFrom(s, b, start, end, depth, p) ==
            match SkipBlank(b, start, end)
            case None => Err(Invalid)
            case Some(at) => if at == end then Ok(p) else RulesFrom(s, b, at, end, depth, p)
  {
    hide RuleAt;
    BlankIsNothing(b, start, end);
  }

  lemma RulesGoOn(s: string, b: seq<Byte>, start: nat, end: nat, depth: nat, p: Progress)
    requires start < end <= |b| && SkipBlank(b, start, end) == Some(start)
    ensures RulesFrom(s, b, start, end, depth, p) ==
            match RuleAt(s, b, start, end, depth, p)
            case Err(refusal) => Err(refusal)
            case Ok((p', next)) => RulesFrom(s, b, next, end, depth, p')
  {
  }

  // ------------------------------------------------------------ what is found there

  /** A segment of a block starts here: at its first solid byte, or the first one behind an earlier segment. */
  predicate SegmentStarts(b: seq<Byte>, cursor: nat, end: nat, start: nat)
    requires end <= |b|
    decreases if cursor < end then end - cursor else 0
  {
    cursor < end &&
    match SkipBlank(b, cursor, end)
    case None => false
    case Some(at) =>
      at < end && (start == at ||
                   match DeclarationEnd(b, at, end)
                   case Err(_) => false
                   case Ok(segmentEnd) => SegmentStarts(b, segmentEnd + 1, end, start))
  }

  /** A prelude and the braces behind it. */
  datatype Rule = Rule(start: nat, open: nat, close: nat)

  /** The braces hold rules of their own. */
  predicate HoldsRules(s: string, start: nat, open: nat) {
    match NormalizePrelude(Slice(s, start, open))
    case Err(_) => false
    case Ok(prelude) => AtRuleName(prelude).Some? && Lower(AtRuleName(prelude).value) in NESTED_RULES
  }

  /** The rule stands in the region, or in a block of the region that holds rules. */
  predicate RuleStands(s: string, b: seq<Byte>, cursor: nat, end: nat, x: Rule)
    requires cursor <= end <= |b|
    decreases end - cursor
  {
    match SkipBlank(b, cursor, end)
    case None => false
    case Some(at) => at < end && RuleStandsFrom(s, b, at, RuleBoundaryIn(b, at, end), end, x)
  }

  predicate RuleStandsFrom(s: string, b: seq<Byte>, at: nat, boundary: Result<RuleBoundary, Refusal>, end: nat, x: Rule)
    requires at < end <= |b| && (boundary.Ok? ==> boundary.value.AtEnd? || at <= boundary.value.at < end)
    decreases end - at, 0
  {
    match boundary
    case Err(_) => false
    case Ok(AtEnd) => false
    case Ok(AtSemicolon(position)) => RuleStands(s, b, position + 1, end, x)
    case Ok(AtBlock(open)) =>
      match MatchingBrace(b, open, end)
      case Err(_) => false
      case Ok(close) =>
        || x == Rule(at, open, close)
        || (HoldsRules(s, at, open) && RuleStands(s, b, open + 1, close, x))
        || RuleStands(s, b, close + 1, end, x)
  }

  /**
   * The segment at the offset of a declaration says it: its property before the first top-level
   * colon, its value behind.
   */
  ghost predicate SegmentSays(s: string, b: seq<Byte>, end: nat, d: Declaration)
    requires end <= |b|
  {
    d.offset < end &&
    match DeclarationEnd(b, d.offset, end)
    case Err(_) => false
    case Ok(segmentEnd) => ColonSays(s, TopLevelColon(b, d.offset, segmentEnd), segmentEnd, d)
  }

  ghost predicate ColonSays(s: string, colon: Result<Option<nat>, Refusal>, segmentEnd: nat, d: Declaration) {
    match colon
    case Err(_) => false
    case Ok(None) => false
    case Ok(Some(at)) =>
      && PropertySays(Slice(s, d.offset, at), d.property)
      && ValueSays(Slice(s, at + 1, segmentEnd), d.value, d.important)
      && d.position == P.PositionAt(s, CharIndex(s, d.offset))
  }

  /** The rule is that of the declaration's selector, and a segment between its braces says the declaration. */
  ghost predicate Declares(s: string, b: seq<Byte>, x: Rule, d: Declaration) {
    && x.start <= x.open < x.close < |b|
    && NormalizeSelector(Slice(s, x.start, x.open)) == Some(d.selector) && !IsAtRule(d.selector)
    && SegmentStarts(b, x.open + 1, x.close, d.offset) && SegmentSays(s, b, x.close, d)
  }

  ghost predicate DeclaredWithin(s: string, b: seq<Byte>, cursor: nat, end: nat, d: Declaration)
    requires cursor <= end <= |b|
  {
    exists x :: RuleStands(s, b, cursor, end, x) && Declares(s, b, x, d)
  }

  /** What the text says, whatever the budgets: some rule of the stylesheet declares it. */
  ghost predicate Written(s: string, d: Declaration) {
    DeclaredWithin(s, Utf8.Encode(s), 0, |Utf8.Encode(s)|, d)
  }

  /** What was found is kept, in front; `d` is added if it is said there, and only then; the budgets are kept. */
  ghost predicate Gains(p: Progress, p': Progress, d: Declaration, said: bool) {
    && p.output <= p'.output && (d in p'.output <==> d in p.output || said)
    && p.rules <= p'.rules
    && (p.rules <= MAX_PARSED_RULES ==> p'.rules <= MAX_PARSED_RULES)
    && (|p.output| <= MAX_PARSED_DECLARATIONS ==> |p'.output| <= MAX_PARSED_DECLARATIONS)
  }

  lemma GainsBoth(p: Progress, q: Progress, r: Progress, d: Declaration, said: bool, said': bool)
    requires Gains(p, q, d, said) && Gains(q, r, d, said')
    ensures Gains(p, r, d, said || said')
  {
  }

  lemma {:induction false} SegmentGains(s: string, b: seq<Byte>, start: nat, end: nat, selector: string, p: Progress,
                                        d: Declaration)
    requires start < end <= |b|
    ensures var r := SegmentAt(s, b, start, end, selector, p);
            r.Ok? ==> Gains(p, r.value.0, d, d.selector == selector && d.offset == start && SegmentSays(s, b, end, d))
  {
    var segmentEnd := DeclarationEnd(b, start, end);
    if segmentEnd.Ok? {
      var colon := TopLevelColon(b, start, segmentEnd.value);
      if colon.Ok? && colon.value.Some? {
        DeclarationGains(s, start, colon.value.value, segmentEnd.value, selector, p, d);
      }
    }
  }

  lemma {:induction false} DeclarationGains(s: string, start: nat, colon: nat, end: nat, selector: string, p: Progress,
                                            d: Declaration)
    ensures var r := DeclarationIn(s, start, colon, end, selector, p);
            r.Ok? ==> Gains(p, r.value, d, d.selector == selector && d.offset == start
                                           && ColonSays(s, Ok(Some(colon)), end, d))
  {
    hide PropertySays, ValueSays, NormalizeProperty, NormalizeValue, Slice;
    PropertyIsSaid(Slice(s, start, colon), d.property);
    ValueIsSaid(Slice(s, colon + 1, end), d.value, d.important);
    var r := DeclarationIn(s, start, colon, end, selector, p);
    if r.Ok? {
      var e := r.value.output[|p.output|];
      assert r.value.output == p.output + [e];
      assert d in r.value.output <==> d in p.output || d == e;
    }
  }

  lemma {:induction false} DeclarationsGain(s: string, b: seq<Byte>, cursor: nat, end: nat, selector: string,
                                            p: Progress, r: Progress,
                                            d: Declaration)
    requires end <= |b| && DeclarationsFrom(s, b, cursor, end, selector, p) == Ok(r)
    ensures Gains(p, r, d, && d.selector == selector
                           && SegmentStarts(b, cursor, end, d.offset) && SegmentSays(s, b, end, d))
    decreases if cursor < end then end - cursor else 0
  {
    assert DeclarationsFrom(s, b, cursor, end, selector, p) == Ok(r);
    if cursor < end {
      var at := SkipBlank(b, cursor, end).value;
      if at < end {
        SegmentGains(s, b, at, end, selector, p, d);
        var (p', next) := SegmentAt(s, b, at, end, selector, p).value;
        DeclarationsGain(s, b, next, end, selector, p', r, d);
        SegmentsUnroll(s, b, cursor, end, selector, p, d.offset);
      }
    }
  }

  /** Where segments start: here, or from where the next one is looked for. */
  lemma {:induction false} SegmentsUnroll(s: string, b: seq<Byte>, cursor: nat, end: nat, selector: string,
                                          p: Progress, start: nat)
    requires cursor < end <= |b| && SkipBlank(b, cursor, end).Some? && SkipBlank(b, cursor, end).value < end
    requires SegmentAt(s, b, SkipBlank(b, cursor, end).value, end, selector, p).Ok?
    ensures var at := SkipBlank(b, cursor, end).value;
            var next := SegmentAt(s, b, at, end, selector, p).value.1;
            SegmentStarts(b, cursor, end, start) <==> start == at || SegmentStarts(b, next, end, start)
  {
  }

  lemma {:induction false} SelectorGains(s: string, b: seq<Byte>, start: nat, open: nat, close: nat, prelude: string,
                                         p: Progress, r: Progress, d: Declaration)
    requires start <= open < close < |b| && NormalizePrelude(Slice(s, start, open)) == Ok(prelude) && !IsAtRule(prelude)
    requires SelectorBlock(s, b, NormalizeSelector(prelude), open, close, p) == Ok(r)
    ensures Gains(p, r, d, Declares(s, b, Rule(start, open, close), d))
  {
    hide DeclarationsFrom, SegmentStarts, SegmentSays, Gains, NormalizePrelude, NormalizeSelector;
    var selector := NormalizeSelector(prelude).value;
    DeclarationsGain(s, b, open + 1, close, selector, p, r, d);
    SelectorIsPrelude(s, b, Rule(start, open, close), prelude, d);
  }

  lemma {:induction false} SelectorIsPrelude(s: string, b: seq<Byte>, x: Rule, prelude: string, d: Declaration)
    requires x.start <= x.open < x.close < |b| && NormalizePrelude(Slice(s, x.start, x.open)) == Ok(prelude)
    requires !IsAtRule(prelude) && NormalizeSelector(prelude).Some?
    ensures Declares(s, b, x, d) <==>
              && d.selector == NormalizeSelector(prelude).value
              && SegmentStarts(b, x.open + 1, x.close, d.offset) && SegmentSays(s, b, x.close, d)
  {
    hide SegmentStarts, SegmentSays, NormalizePrelude, NormalizeSelector;
    SelectorOfPrelude(Slice(s, x.start, x.open), prelude);
  }

  lemma SelectorOfPrelude(text: string, prelude: string)
    requires NormalizePrelude(text) == Ok(prelude)
    ensures NormalizeSelector(text) == NormalizeSelector(prelude)
    ensures NormalizeSelector(prelude).Some? ==> NormalizeSelector(prelude).value == prelude
  {
    hide UnquotedBackslash;
    PreludeNormalizesOnce(text);
  }

  lemma {:induction false} NamedGains(s: string, b: seq<Byte>, start: nat, open: nat, close: nat, prelude: string,
                                      depth: nat, p: Progress,
                                      d: Declaration)
    requires start <= open < close < |b| && NormalizePrelude(Slice(s, start, open)) == Ok(prelude) && IsAtRule(prelude)
    ensures var r := NamedBlock(s, b, AtRuleName(prelude), open, close, depth, p);
            r.Ok? ==> Gains(p, r.value, d, HoldsRules(s, start, open) && DeclaredWithin(s, b, open + 1, close, d))
    decreases close - open, 0
  {
    var r := NamedBlock(s, b, AtRuleName(prelude), open, close, depth, p);
    if r.Ok? && HoldsRules(s, start, open) { RulesGain(s, b, open + 1, close, depth + 1, p, d); }
  }

  lemma {:induction false} AtRuleDeclaresNothing(s: string, b: seq<Byte>, x: Rule, d: Declaration)
    requires x.start <= x.open && NormalizePrelude(Slice(s, x.start, x.open)).Ok?
    requires IsAtRule(NormalizePrelude(Slice(s, x.start, x.open)).value)
    ensures !Declares(s, b, x, d)
  {
  }

  /** A block gives what its rule declares, and what the rules in it declare. */
  lemma {:induction false} BlockGains(s: string, b: seq<Byte>, start: nat, open: nat, close: nat, depth: nat,
                                      p: Progress, d: Declaration)
    requires start <= open < close < |b|
    ensures var r := BlockIn(s, b, start, open, close, depth, p);
            r.Ok? ==> Gains(p, r.value, d, Declares(s, b, Rule(start, open, close), d)
                                           || (HoldsRules(s, start, open) && DeclaredWithin(s, b, open + 1, close, d)))
    decreases close - open, 1
  {
    var prelude := NormalizePrelude(Slice(s, start, open));
    if prelude.Ok? {
      if IsAtRule(prelude.value) {
        NamedGains(s, b, start, open, close, prelude.value, depth, p, d);
        AtRuleDeclaresNothing(s, b, Rule(start, open, close), d);
      } else {
        var r := SelectorBlock(s, b, NormalizeSelector(prelude.value), open, close, p);
        if r.Ok? { SelectorGains(s, b, start, open, close, prelude.value, p, r.value, d); }
      }
    }
  }

  lemma {:induction false} StandsFromBlock(s: string, b: seq<Byte>, cursor: nat, at: nat, open: nat, close: nat,
                                           end: nat, x: Rule)
    requires cursor <= end <= |b| && SkipBlank(b, cursor, end) == Some(at) && at < end
    requires RuleBoundaryIn(b, at, end) == Ok(AtBlock(open)) && MatchingBrace(b, open, end) == Ok(close)
    ensures RuleStands(s, b, cursor, end, x) <==>
              || x == Rule(at, open, close)
              || (HoldsRules(s, at, open) && RuleStands(s, b, open + 1, close, x))
              || RuleStands(s, b, close + 1, end, x)
  {
    hide HoldsRules;
    assert RuleStands(s, b, cursor, end, x) == RuleStandsFrom(s, b, at, Ok(AtBlock(open)), end, x);
  }

  /** What is declared from a block on: by its rule, by the rules in it, or behind it. */
  lemma {:induction false} WithinFromBlock(s: string, b: seq<Byte>, cursor: nat, at: nat, open: nat, close: nat,
                                           end: nat, d: Declaration)
    requires cursor <= end <= |b| && SkipBlank(b, cursor, end) == Some(at) && at < end
    requires RuleBoundaryIn(b, at, end) == Ok(AtBlock(open)) && MatchingBrace(b, open, end) == Ok(close)
    ensures DeclaredWithin(s, b, cursor, end, d) <==>
              || Declares(s, b, Rule(at, open, close), d)
              || (HoldsRules(s, at, open) && DeclaredWithin(s, b, open + 1, close, d))
              || DeclaredWithin(s, b, close + 1, end, d)
  {
    hide Declares, RuleStands, HoldsRules;
    forall x: Rule
      ensures RuleStands(s, b, cursor, end, x) <==>
                || x == Rule(at, open, close)
                || (HoldsRules(s, at, open) && RuleStands(s, b, open + 1, close, x))
                || RuleStands(s, b, close + 1, end, x)
    {
      StandsFromBlock(s, b, cursor, at, open, close, end, x);
    }
  }

  lemma {:induction false} WithinFromStatement(s: string, b: seq<Byte>, cursor: nat, at: nat, position: nat, end: nat,
                                               d: Declaration)
    requires cursor <= end <= |b| && SkipBlank(b, cursor, end) == Some(at) && at < end
    requires RuleBoundaryIn(b, at, end) == Ok(AtSemicolon(position))
    ensures DeclaredWithin(s, b, cursor, end, d) <==> DeclaredWithin(s, b, position + 1, end, d)
  {
    hide Declares;
    forall x: Rule ensures RuleStands(s, b, cursor, end, x) <==> RuleStands(s, b, position + 1, end, x) {}
  }

  lemma CountGains(p: Progress, d: Declaration)
    ensures OneRule(p).Ok? ==> Gains(p, OneRule(p).value, d, false)
  {
  }

  /** A block and the rules behind it. */
  lemma {:induction false} BlockRuleGains(s: string, b: seq<Byte>, cursor: nat, at: nat, open: nat, end: nat,
                                          depth: nat, p: Progress,
                                          r: Progress, d: Declaration)
    requires cursor <= end <= |b| && SkipBlank(b, cursor, end) == Some(at) && at < end
    requires RuleBoundaryIn(b, at, end) == Ok(AtBlock(open)) && BlockAt(s, b, at, open, end, depth, p).Ok?
    requires var (p', next) := BlockAt(s, b, at, open, end, depth, p).value;
             RulesFrom(s, b, next, end, depth, p') == Ok(r)
    ensures Gains(p, r, d, DeclaredWithin(s, b, cursor, end, d))
    decreases end - at, 4
  {
    hide Declares, DeclaredWithin, HoldsRules, Gains, RulesFrom, BlockIn;
    var close := MatchingBrace(b, open, end).value;
    var counted := OneRule(p).value;
    var p' := BlockAt(s, b, at, open, end, depth, p).value.0;
    BlockGains(s, b, at, open, close, depth, counted, d);
    RulesGain(s, b, close + 1, end, depth, p', d);
    WithinFromBlock(s, b, cursor, at, open, close, end, d);
    var said := Declares(s, b, Rule(at, open, close), d)
                || (HoldsRules(s, at, open) && DeclaredWithin(s, b, open + 1, close, d));
    CountGains(p, d);
    GainsBoth(p, counted, p', d, false, said);
    GainsBoth(p, p', r, d, said, DeclaredWithin(s, b, close + 1, end, d));
  }

  /** A statement and the rules behind it: it declares nothing. */
  lemma {:induction false} StatementRuleGains(s: string, b: seq<Byte>, cursor: nat, at: nat, position: nat, end: nat,
                                              depth: nat,
                                              p: Progress, r: Progress, d: Declaration)
    requires cursor <= end <= |b| && SkipBlank(b, cursor, end) == Some(at) && at < end
    requires RuleBoundaryIn(b, at, end) == Ok(AtSemicolon(position)) && StatementIn(s, at, position, p).Ok?
    requires RulesFrom(s, b, position + 1, end, depth, StatementIn(s, at, position, p).value) == Ok(r)
    ensures Gains(p, r, d, DeclaredWithin(s, b, cursor, end, d))
    decreases end - at, 4
  {
    hide Declares, DeclaredWithin, Gains, RulesFrom, RuleBoundaryIn, SkipBlank;
    var p' := StatementIn(s, at, position, p).value;
    RulesGain(s, b, position + 1, end, depth, p', d);
    WithinFromStatement(s, b, cursor, at, position, end, d);
    CountGains(p, d);
    GainsBoth(p, p', r, d, false, DeclaredWithin(s, b, position + 1, end, d));
  }

  /** Text that is no rule declares nothing. */
  lemma {:induction false} NothingWithin(s: string, b: seq<Byte>, cursor: nat, end: nat, d: Declaration)
    requires cursor <= end <= |b| && SkipBlank(b, cursor, end).Some?
    requires var at := SkipBlank(b, cursor, end).value; at < end ==> RuleBoundaryIn(b, at, end) == Ok(AtEnd)
    ensures !DeclaredWithin(s, b, cursor, end, d)
  {
    hide Declares;
    forall x: Rule ensures !RuleStands(s, b, cursor, end, x) {}
  }

  /** An accepted region is a rule and the rules behind it, or nothing more. */
  lemma {:induction false} RulesUnroll(s: string, b: seq<Byte>, cursor: nat, end: nat, depth: nat, p: Progress)
    requires cursor <= end <= |b| && RulesFrom(s, b, cursor, end, depth, p).Ok?
    ensures SkipBlank(b, cursor, end).Some?
    ensures var at := SkipBlank(b, cursor, end).value;
            var r := RulesFrom(s, b, cursor, end, depth, p);
            if at == end then r.value == p
            else
              RuleBoundaryIn(b, at, end).Ok?
              && var first := RuleBy(s, b, at, RuleBoundaryIn(b, at, end).value, end, depth, p);
              first.Ok? && RulesFrom(s, b, first.value.1, end, depth, first.value.0) == r
  {
    var at := SkipBlank(b, cursor, end);
    if at.Some? && at.value < end {
      assert RulesFrom(s, b, cursor, end, depth, p) ==
             match RuleAt(s, b, at.value, end, depth, p)
             case Err(refusal) => Err(refusal)
             case Ok((p', next)) => RulesFrom(s, b, next, end, depth, p');
      assert RuleAt(s, b, at.value, end, depth, p) ==
             match RuleBoundaryIn(b, at.value, end)
             case Err(refusal) => Err(refusal)
             case Ok(boundary) => RuleBy(s, b, at.value, boundary, end, depth, p);
    }
  }

  lemma {:induction false} TextGains(s: string, b: seq<Byte>, cursor: nat, end: nat, depth: nat, p: Progress,
                                     d: Declaration)
    requires cursor <= end <= |b| && RulesFrom(s, b, cursor, end, depth, p).Ok? && SkipBlank(b, cursor, end).Some?
    requires var at := SkipBlank(b, cursor, end).value; at < end ==> RuleBoundaryIn(b, at, end) == Ok(AtEnd)
    ensures Gains(p, RulesFrom(s, b, cursor, end, depth, p).value, d, DeclaredWithin(s, b, cursor, end, d))
  {
    hide DeclaredWithin;
    NothingWithin(s, b, cursor, end, d);
    RulesUnroll(s, b, cursor, end, depth, p);
    RulesUnroll(s, b, end, end, depth, p);
    assert Gains(p, p, d, false);
  }

  /** The rules of a region give exactly what is declared in it. */
  lemma {:induction false} RulesGain(s: string, b: seq<Byte>, cursor: nat, end: nat, depth: nat, p: Progress,
                                     d: Declaration)
    requires cursor <= end <= |b|
    ensures var r := RulesFrom(s, b, cursor, end, depth, p);
            r.Ok? ==> Gains(p, r.value, d, DeclaredWithin(s, b, cursor, end, d))
    decreases end - cursor, 5
  {
    hide DeclaredWithin, Gains, RulesFrom;
    var r := RulesFrom(s, b, cursor, end, depth, p);
    if r.Ok? {
      RulesUnroll(s, b, cursor, end, depth, p);
      var at := SkipBlank(b, cursor, end).value;
      if at == end {
        TextGains(s, b, cursor, end, depth, p, d);
      } else {
        match RuleBoundaryIn(b, at, end).value
        case AtEnd => TextGains(s, b, cursor, end, depth, p, d);
        case AtSemicolon(position) => StatementRuleGains(s, b, cursor, at, position, end, depth, p, r.value, d);
        case AtBlock(open) => BlockRuleGains(s, b, cursor, at, open, end, depth, p, r.value, d);
      }
    }
  }

  /** A stylesheet that is accepted gives exactly the declarations written in it, and both budgets are kept. */
  lemma FoundIsWritten(s: string, d: Declaration)
    ensures Stylesheet(s).Ok? ==>
              && (d in Stylesheet(s).value.output <==> Written(s, d))
              && Stylesheet(s).value.rules <= MAX_PARSED_RULES
              && |Stylesheet(s).value.output| <= MAX_PARSED_DECLARATIONS
  {
    var b := Utf8.Encode(s);
    RulesGain(s, b, 0, |b|, 0, Progress(0, []), d);
  }
}
