/**
 * The lexical layer of the stylesheet reader: one definition of which bytes
 * are code rather than string, escape or comment, and the four scanners that
 * look for a byte of their kind among them.
 */
module CssLexer {
  import opened Common

  type Byte = nat

  const BACKSLASH: Byte := 0x5C
  const SLASH: Byte := 0x2F
  const STAR: Byte := 0x2A
  const SINGLE: Byte := 0x27
  const DOUBLE: Byte := 0x22
  const OPEN_PAREN: Byte := 0x28
  const CLOSE_PAREN: Byte := 0x29
  const OPEN_BRACKET: Byte := 0x5B
  const CLOSE_BRACKET: Byte := 0x5D
  const OPEN_BRACE: Byte := 0x7B
  const CLOSE_BRACE: Byte := 0x7D
  const SEMICOLON: Byte := 0x3B
  const COLON: Byte := 0x3A

  const MAX_COMPONENT_DEPTH := 32
  const MAX_PARSE_DEPTH := 12

  datatype Refusal = Invalid | Unsupported | Limit

  predicate IsQuote(c: Byte) { c == SINGLE || c == DOUBLE }

  /** ASCII whitespace: tab, line feed, form feed, carriage return, space. */
  predicate IsBlankByte(c: Byte) { c == 0x20 || c == 0x09 || c == 0x0A || c == 0x0C || c == 0x0D }

  // ------------------------------------------------------------- what is code

  predicate OpensComment(b: seq<Byte>, i: nat, end: nat)
    requires end <= |b|
  {
    i + 1 < end && b[i] == SLASH && b[i + 1] == STAR
  }

  /** Just past the first comment end at or after `from`. */
  function CommentEnd(b: seq<Byte>, from: nat, end: nat): (r: Option<nat>)
    requires end <= |b|
    ensures r.Some? ==> from + 2 <= r.value <= end && b[r.value - 2] == STAR && b[r.value - 1] == SLASH
    decreases if from < end then end - from else 0
  {
    if from + 1 >= end then None
    else if b[from] == STAR && b[from + 1] == SLASH then Some(from + 2)
    else CommentEnd(b, from + 1, end)
  }

  datatype Ending = Clean | OpenQuote | OpenComment

  /** The positions of code bytes, in order, and in what state the end was reached. */
  datatype Lexed = Lexed(code: seq<nat>, ending: Ending)

  /**
   * A string runs to its closing quote, a backslash in it hides the byte that
   * follows, a comment runs to its end; quotes themselves are not code.
   */
  function Code(b: seq<Byte>, i: nat, end: nat, quote: Option<Byte>): Lexed
    requires end <= |b|
    decreases if i < end then end - i else 0
  {
    if i >= end then Lexed([], if quote.Some? then OpenQuote else Clean)
    else if quote.Some? then
      if b[i] == BACKSLASH then Code(b, i + 2, end, quote)
      else Code(b, i + 1, end, if b[i] == quote.value then None else quote)
    else if OpensComment(b, i, end) then
      (match CommentEnd(b, i + 2, end)
       case None => Lexed([], OpenComment)
       case Some(e) => Code(b, e, end, None))
    else if IsQuote(b[i]) then Code(b, i + 1, end, Some(b[i]))
    else
      var rest := Code(b, i + 1, end, None);
      Lexed([i] + rest.code, rest.ending)
  }

  /** In range, in order, and never on a quote or the start of a comment. */
  predicate CodePositions(b: seq<Byte>, i: nat, end: nat, ps: seq<nat>)
    requires end <= |b|
  {
    && (forall k | 0 <= k < |ps| :: i <= ps[k] < end && !IsQuote(b[ps[k]]) && !OpensComment(b, ps[k], end))
    && (forall j, k | 0 <= j < k < |ps| :: ps[j] < ps[k])
  }

  lemma {:induction false} CodeIsInOrder(b: seq<Byte>, i: nat, end: nat, quote: Option<Byte>)
    requires end <= |b|
    ensures CodePositions(b, i, end, Code(b, i, end, quote).code)
    decreases if i < end then end - i else 0
  {
    if i >= end {
    } else if quote.Some? {
      if b[i] == BACKSLASH { CodeIsInOrder(b, i + 2, end, quote); }
      else { CodeIsInOrder(b, i + 1, end, if b[i] == quote.value then None else quote); }
    } else if OpensComment(b, i, end) {
      var e := CommentEnd(b, i + 2, end);
      if e.Some? { CodeIsInOrder(b, e.value, end, None); }
    } else if IsQuote(b[i]) {
      CodeIsInOrder(b, i + 1, end, Some(b[i]));
    } else {
      CodeIsInOrder(b, i + 1, end, None);
      var rest := Code(b, i + 1, end, None).code;
      assert Code(b, i, end, quote).code == [i] + rest;
      assert CodePositions(b, i, end, [i] + rest);
    }
  }

  // ------------------------------------------------------------- nesting of code

  /** How many more opening than closing bytes among the first `k` code bytes. */
  function Depth(b: seq<Byte>, ps: seq<nat>, k: nat, opening: Byte, closing: Byte): int
    requires k <= |ps| && forall j | 0 <= j < |ps| :: ps[j] < |b|
  {
    if k == 0 then 0
    else
      Depth(b, ps, k - 1, opening, closing)
      + (if b[ps[k - 1]] == opening then 1 else if b[ps[k - 1]] == closing then -1 else 0)
  }

  predicate InRange(b: seq<Byte>, ps: seq<nat>) { forall j | 0 <= j < |ps| :: ps[j] < |b| }

  function Parens(b: seq<Byte>, ps: seq<nat>, k: nat): int
    requires k <= |ps| && InRange(b, ps)
  {
    Depth(b, ps, k, OPEN_PAREN, CLOSE_PAREN)
  }

  function Brackets(b: seq<Byte>, ps: seq<nat>, k: nat): int
    requires k <= |ps| && InRange(b, ps)
  {
    Depth(b, ps, k, OPEN_BRACKET, CLOSE_BRACKET)
  }

  predicate Outermost(b: seq<Byte>, ps: seq<nat>, k: nat)
    requires k <= |ps| && InRange(b, ps)
  {
    Parens(b, ps, k) == 0 && Brackets(b, ps, k) == 0
  }

  /** Nothing closed before it was opened, nothing nested deeper than allowed. */
  predicate Nested(b: seq<Byte>, ps: seq<nat>, k: nat, limit: Option<nat>)
    requires k <= |ps| && InRange(b, ps)
  {
    forall j | 0 <= j <= k ::
      && 0 <= Parens(b, ps, j) && (limit.Some? ==> Parens(b, ps, j) <= limit.value)
      && 0 <= Brackets(b, ps, j) && (limit.Some? ==> Brackets(b, ps, j) <= limit.value)
  }

  /** The `k`-th code byte is outside parentheses and brackets, and of one of the kinds looked for. */
  predicate Landing(b: seq<Byte>, ps: seq<nat>, k: nat, kinds: set<Byte>)
    requires k < |ps| && InRange(b, ps)
  {
    Outermost(b, ps, k) && b[ps[k]] in kinds
  }

  /** A scan for the kinds gets to the `k`-th code byte: nothing to land on and no bad nesting before it. */
  predicate GetsTo(b: seq<Byte>, ps: seq<nat>, k: nat, kinds: set<Byte>, limit: Option<nat>)
    requires k <= |ps| && InRange(b, ps)
  {
    Nested(b, ps, k, limit) && forall j | 0 <= j < k :: !Landing(b, ps, j, kinds)
  }

  /** And goes no further: it lands there, or the nesting goes wrong there, or that is the end. */
  predicate StopsAt(b: seq<Byte>, ps: seq<nat>, k: nat, kinds: set<Byte>, limit: Option<nat>)
    requires k <= |ps| && InRange(b, ps)
  {
    GetsTo(b, ps, k, kinds, limit) && (k < |ps| ==> Landing(b, ps, k, kinds) || !Nested(b, ps, k + 1, limit))
  }

  predicate BadAt(b: seq<Byte>, ps: seq<nat>, k: nat, limit: Option<nat>)
    requires k < |ps| && InRange(b, ps)
  {
    || Parens(b, ps, k + 1) < 0 || (limit.Some? && Parens(b, ps, k + 1) > limit.value)
    || Brackets(b, ps, k + 1) < 0 || (limit.Some? && Brackets(b, ps, k + 1) > limit.value)
  }

  /** Where a scan that has got to the `k`-th code byte stops. */
  function Stop(b: seq<Byte>, ps: seq<nat>, k: nat, kinds: set<Byte>, limit: Option<nat>): (r: nat)
    requires k <= |ps| && InRange(b, ps)
    ensures k <= r <= |ps|
    decreases |ps| - k
  {
    if k == |ps| || Landing(b, ps, k, kinds) || BadAt(b, ps, k, limit) then k else Stop(b, ps, k + 1, kinds, limit)
  }

  lemma {:induction false} StopIsWhereItStops(b: seq<Byte>, ps: seq<nat>, k: nat, kinds: set<Byte>, limit: Option<nat>)
    requires k <= |ps| && InRange(b, ps) && GetsTo(b, ps, k, kinds, limit)
    ensures StopsAt(b, ps, Stop(b, ps, k, kinds, limit), kinds, limit)
    decreases |ps| - k
  {
    if k < |ps| && !Landing(b, ps, k, kinds) && !BadAt(b, ps, k, limit) {
      StopIsWhereItStops(b, ps, k + 1, kinds, limit);
    }
  }

  /** There is one place where a scan stops. */
  lemma {:induction false} StopIsUnique(b: seq<Byte>, ps: seq<nat>, k: nat, l: nat, kinds: set<Byte>,
                                        limit: Option<nat>)
    requires k <= |ps| && l <= |ps| && InRange(b, ps) && StopsAt(b, ps, k, kinds, limit)
    requires StopsAt(b, ps, l, kinds, limit)
    ensures k == l
  {
  }

  // -------------------------------------------------------------------- scanners

  datatype RuleBoundary = AtSemicolon(at: nat) | AtBlock(at: nat) | AtEnd

  const RULE_KINDS := {SEMICOLON, OPEN_BRACE, CLOSE_BRACE}
  const DECLARATION_KINDS := {SEMICOLON, OPEN_BRACE, CLOSE_BRACE}
  const COLON_KINDS := {COLON}

  /** What bad nesting at the `k`-th code byte is: closing what is not open, or opening too deep. */
  function BadNesting(b: seq<Byte>, ps: seq<nat>, k: nat): Refusal
    requires k < |ps| && InRange(b, ps)
  {
    if Parens(b, ps, k + 1) < 0 || Brackets(b, ps, k + 1) < 0 then Invalid else Limit
  }

  /** The loop state of a scan at `cursor`: the code still ahead is the code from the `k`-th byte on. */
  predicate Scanning(b: seq<Byte>, l: Lexed, cursor: nat, end: nat, quote: Option<Byte>, k: nat)
    requires end <= |b|
  {
    k <= |l.code| && Code(b, cursor, end, quote) == Lexed(l.code[k..], l.ending)
  }

  /** `skip_comment` */
  method SkipComment(b: seq<Byte>, start: nat, end: nat) returns (r: Option<nat>)
    requires end <= |b|
    ensures r == CommentEnd(b, start + 2, end)
  {
    var cursor := start + 2;
    while cursor + 1 < end
      invariant CommentEnd(b, cursor, end) == CommentEnd(b, start + 2, end)
      decreases if cursor < end then end - cursor else 0
    {
      if b[cursor] == STAR && b[cursor + 1] == SLASH { return Some(cursor + 2); }
      cursor := cursor + 1;
    }
    return None;
  }

  lemma {:induction false} ScanCode(b: seq<Byte>, l: Lexed, cursor: nat, end: nat, k: nat)
    requires end <= |b| && Scanning(b, l, cursor, end, None, k) && cursor < end
    requires !OpensComment(b, cursor, end) && !IsQuote(b[cursor])
    ensures k < |l.code| && l.code[k] == cursor && Scanning(b, l, cursor + 1, end, None, k + 1)
  {
    var rest := Code(b, cursor + 1, end, None);
    assert Code(b, cursor, end, None) == Lexed([cursor] + rest.code, rest.ending);
    assert l.code[k..][0] == cursor;
    assert l.code[k..][1..] == l.code[k + 1..];
  }

  /** Inside a string nothing is code; a backslash hides the byte after it. */
  lemma {:induction false} ScanString(b: seq<Byte>, l: Lexed, cursor: nat, end: nat, mark: Byte, k: nat)
    requires end <= |b| && Scanning(b, l, cursor, end, Some(mark), k) && cursor < end
    ensures if b[cursor] == BACKSLASH then Scanning(b, l, cursor + 2, end, Some(mark), k)
            else Scanning(b, l, cursor + 1, end, if b[cursor] == mark then None else Some(mark), k)
  {
  }

  lemma {:induction false} ScanComment(b: seq<Byte>, l: Lexed, cursor: nat, end: nat, k: nat)
    requires end <= |b| && Scanning(b, l, cursor, end, None, k) && OpensComment(b, cursor, end)
    ensures match CommentEnd(b, cursor + 2, end)
            case None => k == |l.code| && l.ending.OpenComment?
            case Some(e) => Scanning(b, l, e, end, None, k)
  {
  }

  lemma {:induction false} ScanQuote(b: seq<Byte>, l: Lexed, cursor: nat, end: nat, k: nat)
    requires end <= |b| && Scanning(b, l, cursor, end, None, k) && cursor < end
    requires IsQuote(b[cursor]) && !OpensComment(b, cursor, end)
    ensures Scanning(b, l, cursor + 1, end, Some(b[cursor]), k)
  {
  }

  lemma {:induction false} ScanEnd(b: seq<Byte>, l: Lexed, cursor: nat, end: nat, quote: Option<Byte>, k: nat)
    requires end <= |b| && Scanning(b, l, cursor, end, quote, k) && cursor >= end
    ensures k == |l.code| && l.ending == if quote.Some? then OpenQuote else Clean
  {
  }

  /** One turn of every scanner: past a string byte, a comment or a quote, or onto a code byte. */
  method Advance(b: seq<Byte>, cursor: nat, end: nat, quote: Option<Byte>, ghost l: Lexed, ghost k: nat)
    returns (r: Option<(nat, Option<Byte>)>, onCode: bool)
    requires end <= |b| && Scanning(b, l, cursor, end, quote, k) && cursor < end
    ensures onCode ==>
              && quote.None? && k < |l.code| && l.code[k] == cursor
              && Scanning(b, l, cursor + 1, end, None, k + 1)
    ensures !onCode && r.Some? ==> r.value.0 > cursor && Scanning(b, l, r.value.0, end, r.value.1, k)
    ensures !onCode && r.None? ==> k == |l.code| && l.ending.OpenComment?
  {
    var c := b[cursor];
    onCode, r := false, None;
    if quote.Some? {
      ScanString(b, l, cursor, end, quote.value, k);
      if c == BACKSLASH { return Some((cursor + 2, quote)), false; }
      return Some((cursor + 1, if c == quote.value then None else quote)), false;
    }
    if c == SLASH && cursor + 1 < end && b[cursor + 1] == STAR {
      ScanComment(b, l, cursor, end, k);
      var e := SkipComment(b, cursor, end);
      if e.None? { return None, false; }
      return Some((e.value, None)), false;
    }
    if IsQuote(c) {
      ScanQuote(b, l, cursor, end, k);
      return Some((cursor + 1, Some(c))), false;
    }
    ScanCode(b, l, cursor, end, k);
    return None, true;
  }

  datatype Nesting = Fine(paren: nat, bracket: nat) | Bad(refusal: Refusal)

  /** Count one code byte into the nesting. */
  function Nest(c: Byte, paren: nat, bracket: nat, limit: Option<nat>): Nesting {
    if c == OPEN_PAREN then if limit.Some? && paren + 1 > limit.value then Bad(Limit) else Fine(paren + 1, bracket)
    else if c == CLOSE_PAREN then if paren == 0 then Bad(Invalid) else Fine(paren - 1, bracket)
    else if c == OPEN_BRACKET then
      if limit.Some? && bracket + 1 > limit.value then Bad(Limit) else Fine(paren, bracket + 1)
    else if c == CLOSE_BRACKET then if bracket == 0 then Bad(Invalid) else Fine(paren, bracket - 1)
    else Fine(paren, bracket)
  }

  /** The counters of a scan at the `k`-th code byte. */
  predicate Counts(b: seq<Byte>, ps: seq<nat>, k: nat, paren: nat, bracket: nat, limit: Option<nat>)
    requires k <= |ps| && InRange(b, ps)
  {
    && paren == Parens(b, ps, k) && bracket == Brackets(b, ps, k)
    && (limit.Some? ==> paren <= limit.value && bracket <= limit.value)
  }

  /** A byte that does not land leads to the next one with the counters kept, or is where the nesting goes wrong. */
  lemma {:induction false} NestGoesOn(b: seq<Byte>, ps: seq<nat>, k: nat, paren: nat, bracket: nat, kinds: set<Byte>,
                                      limit: Option<nat>)
    requires k < |ps| && InRange(b, ps) && Counts(b, ps, k, paren, bracket, limit)
    ensures Landing(b, ps, k, kinds) <==> paren == 0 && bracket == 0 && b[ps[k]] in kinds
    ensures !Landing(b, ps, k, kinds) ==>
              match Nest(b[ps[k]], paren, bracket, limit)
              case Fine(p, q) =>
                && Counts(b, ps, k + 1, p, q, limit)
                && Stop(b, ps, k, kinds, limit) == Stop(b, ps, k + 1, kinds, limit)
              case Bad(refusal) => Stop(b, ps, k, kinds, limit) == k && refusal == BadNesting(b, ps, k)
  {
  }

  /** How a scan ended. */
  datatype Stopped = Landed(at: nat) | Broken(refusal: Refusal) | RanOut(ending: Ending, outermost: bool)

  function StoppedAt(b: seq<Byte>, l: Lexed, k: nat, kinds: set<Byte>): Stopped
    requires k <= |l.code| && InRange(b, l.code)
  {
    if k == |l.code| then RanOut(l.ending, Outermost(b, l.code, k))
    else if Landing(b, l.code, k, kinds) then Landed(l.code[k])
    else Broken(BadNesting(b, l.code, k))
  }

  /** Where and how a scan of a region for some kinds of byte ends. */
  function Scanned(b: seq<Byte>, start: nat, end: nat, kinds: set<Byte>, limit: Option<nat>): Stopped
    requires end <= |b|
  {
    CodeIsInOrder(b, start, end, None);
    var l := Code(b, start, end, None);
    StoppedAt(b, l, Stop(b, l.code, 0, kinds, limit), kinds)
  }

  /** The loop the scanners over parentheses and brackets have in common. */
  method Scan(b: seq<Byte>, start: nat, end: nat, kinds: set<Byte>, limit: Option<nat>) returns (r: Stopped)
    requires end <= |b|
    ensures r == Scanned(b, start, end, kinds, limit)
  {
    ghost var l := Code(b, start, end, None);
    CodeIsInOrder(b, start, end, None);
    var cursor := start;
    var quote: Option<Byte> := None;
    var paren, bracket: nat := 0, 0;
    ghost var k := 0;
    while cursor < end
      invariant Scanning(b, l, cursor, end, quote, k) && Counts(b, l.code, k, paren, bracket, limit)
      invariant Stop(b, l.code, 0, kinds, limit) == Stop(b, l.code, k, kinds, limit)
      decreases if cursor < end then end - cursor else 0
    {
      var next, onCode := Advance(b, cursor, end, quote, l, k);
      if !onCode {
        if next.None? { return RanOut(OpenComment, paren == 0 && bracket == 0); }
        cursor, quote := next.value.0, next.value.1;
      } else {
        NestGoesOn(b, l.code, k, paren, bracket, kinds, limit);
        if paren == 0 && bracket == 0 && b[cursor] in kinds { return Landed(cursor); }
        var nested := Nest(b[cursor], paren, bracket, limit);
        if nested.Bad? { return Broken(nested.refusal); }
        paren, bracket := nested.paren, nested.bracket;
        cursor := cursor + 1;
        k := k + 1;
      }
    }
    ScanEnd(b, l, cursor, end, quote, k);
    return RanOut(if quote.Some? then OpenQuote else Clean, paren == 0 && bracket == 0);
  }

  // ------------------------------------------------------------ the four scanners

  function RuleVerdict(b: seq<Byte>, stopped: Stopped): Result<RuleBoundary, Refusal>
    requires stopped.Landed? ==> stopped.at < |b|
  {
    match stopped
    case Landed(at) =>
      if b[at] == SEMICOLON then Ok(AtSemicolon(at)) else if b[at] == OPEN_BRACE then Ok(AtBlock(at)) else Err(Invalid)
    case Broken(refusal) => Err(refusal)
    case RanOut(ending, outermost) => if ending.Clean? && outermost then Ok(AtEnd) else Err(Invalid)
  }

  function DeclarationVerdict(b: seq<Byte>, stopped: Stopped, end: nat): Result<nat, Refusal>
    requires stopped.Landed? ==> stopped.at < |b|
  {
    match stopped
    case Landed(at) => if b[at] == SEMICOLON then Ok(at) else Err(Unsupported)
    case Broken(refusal) => Err(refusal)
    case RanOut(ending, outermost) => if ending.Clean? && outermost then Ok(end) else Err(Invalid)
  }

  function ColonVerdict(stopped: Stopped): Result<Option<nat>, Refusal> {
    match stopped
    case Landed(at) => Ok(Some(at))
    case Broken(_) => Err(Invalid)
    case RanOut(ending, _) => if ending.OpenComment? then Err(Invalid) else Ok(None)
  }

  /**
   * The `k`-th code byte, at `p`, is the first of its kind outside parentheses and brackets, and
   * nothing before it is badly nested.
   */
  predicate FirstLanding(b: seq<Byte>, ps: seq<nat>, k: nat, p: nat, kinds: set<Byte>, limit: Option<nat>)
    requires InRange(b, ps)
  {
    k < |ps| && ps[k] == p && Landing(b, ps, k, kinds) && GetsTo(b, ps, k, kinds, limit)
  }

  /**
   * A scan lands exactly on the first byte of its kinds that is code, outside
   * parentheses and brackets, with the nesting in order up to it.
   */
  lemma LandsOnTheFirst(b: seq<Byte>, start: nat, end: nat, kinds: set<Byte>, limit: Option<nat>, p: nat)
    requires end <= |b|
    ensures var ps := Code(b, start, end, None).code;
            && InRange(b, ps)
            && (Scanned(b, start, end, kinds, limit) == Landed(p) <==>
                  exists k :: FirstLanding(b, ps, k, p, kinds, limit))
    ensures Scanned(b, start, end, kinds, limit) == Landed(p) ==> start <= p < end && b[p] in kinds
  {
    var l := Code(b, start, end, None);
    var ps := l.code;
    CodeIsInOrder(b, start, end, None);
    StopIsWhereItStops(b, ps, 0, kinds, limit);
    var stop := Stop(b, ps, 0, kinds, limit);
    if Scanned(b, start, end, kinds, limit) == Landed(p) { assert FirstLanding(b, ps, stop, p, kinds, limit); }
    if k :| FirstLanding(b, ps, k, p, kinds, limit) { StopIsUnique(b, ps, k, stop, kinds, limit); }
  }

  /** The first of semicolon and braces at the top level: what ends a prelude. */
  function RuleBoundaryIn(b: seq<Byte>, start: nat, end: nat): (r: Result<RuleBoundary, Refusal>)
    requires end <= |b|
    ensures r.Ok? && r.value.AtSemicolon? ==> start <= r.value.at < end && b[r.value.at] == SEMICOLON
    ensures r.Ok? && r.value.AtBlock? ==> start <= r.value.at < end && b[r.value.at] == OPEN_BRACE
  {
    var stopped := Scanned(b, start, end, RULE_KINDS, Some(MAX_COMPONENT_DEPTH));
    LandsInside(b, start, end, RULE_KINDS, Some(MAX_COMPONENT_DEPTH));
    RuleVerdict(b, stopped)
  }

  /** The first top-level semicolon, or the end. */
  function DeclarationEnd(b: seq<Byte>, start: nat, end: nat): (r: Result<nat, Refusal>)
    requires start <= end <= |b|
    ensures r.Ok? ==> start <= r.value <= end && (r.value < end ==> b[r.value] == SEMICOLON)
  {
    var stopped := Scanned(b, start, end, DECLARATION_KINDS, Some(MAX_COMPONENT_DEPTH));
    LandsInside(b, start, end, DECLARATION_KINDS, Some(MAX_COMPONENT_DEPTH));
    DeclarationVerdict(b, stopped, end)
  }

  /** The first top-level colon, if there is one. */
  function TopLevelColon(b: seq<Byte>, start: nat, end: nat): (r: Result<Option<nat>, Refusal>)
    requires end <= |b|
    ensures r.Ok? && r.value.Some? ==> start <= r.value.value < end && b[r.value.value] == COLON
  {
    LandsInside(b, start, end, COLON_KINDS, None);
    ColonVerdict(Scanned(b, start, end, COLON_KINDS, None))
  }

  lemma LandsInside(b: seq<Byte>, start: nat, end: nat, kinds: set<Byte>, limit: Option<nat>)
    requires end <= |b|
    ensures var stopped := Scanned(b, start, end, kinds, limit);
            stopped.Landed? ==> start <= stopped.at < end && b[stopped.at] in kinds
  {
    var stopped := Scanned(b, start, end, kinds, limit);
    if stopped.Landed? { LandsOnTheFirst(b, start, end, kinds, limit, stopped.at); }
  }

  /** `find_rule_boundary` */
  method FindRuleBoundary(b: seq<Byte>, start: nat, end: nat) returns (r: Result<RuleBoundary, Refusal>)
    requires end <= |b|
    ensures r == RuleBoundaryIn(b, start, end)
  {
    var stopped := Scan(b, start, end, RULE_KINDS, Some(MAX_COMPONENT_DEPTH));
    match stopped {
      case Landed(at) =>
        LandsOnTheFirst(b, start, end, RULE_KINDS, Some(MAX_COMPONENT_DEPTH), at);
        if b[at] == SEMICOLON { return Ok(AtSemicolon(at)); }
        if b[at] == OPEN_BRACE { return Ok(AtBlock(at)); }
        return Err(Invalid);
      case Broken(refusal) => return Err(refusal);
      case RanOut(ending, outermost) => return if ending.Clean? && outermost then Ok(AtEnd) else Err(Invalid);
    }
  }

  /** `find_declaration_end` */
  method FindDeclarationEnd(b: seq<Byte>, start: nat, end: nat) returns (r: Result<nat, Refusal>)
    requires start <= end <= |b|
    ensures r == DeclarationEnd(b, start, end)
  {
    var stopped := Scan(b, start, end, DECLARATION_KINDS, Some(MAX_COMPONENT_DEPTH));
    match stopped {
      case Landed(at) =>
        LandsOnTheFirst(b, start, end, DECLARATION_KINDS, Some(MAX_COMPONENT_DEPTH), at);
        return if b[at] == SEMICOLON then Ok(at) else Err(Unsupported);
      case Broken(refusal) => return Err(refusal);
      case RanOut(ending, outermost) => return if ending.Clean? && outermost then Ok(end) else Err(Invalid);
    }
  }

  /** `find_top_level_colon`: no limit on nesting, and an end inside a string or parentheses is just no colon. */
  method FindTopLevelColon(b: seq<Byte>, start: nat, end: nat) returns (r: Result<Option<nat>, Refusal>)
    requires end <= |b|
    ensures r == TopLevelColon(b, start, end)
  {
    var stopped := Scan(b, start, end, COLON_KINDS, None);
    match stopped {
      case Landed(at) => return Ok(Some(at));
      case Broken(refusal) =>
        UnlimitedNeverTooDeep(b, start, end, COLON_KINDS);
        return Err(Invalid);
      case RanOut(ending, _) => return if ending.OpenComment? then Err(Invalid) else Ok(None);
    }
  }

  /** Without a limit the only bad nesting is closing what was not opened. */
  lemma UnlimitedNeverTooDeep(b: seq<Byte>, start: nat, end: nat, kinds: set<Byte>)
    requires end <= |b|
    ensures Scanned(b, start, end, kinds, None).Broken? ==> Scanned(b, start, end, kinds, None).refusal == Invalid
  {
    var ps := Code(b, start, end, None).code;
    CodeIsInOrder(b, start, end, None);
    StopIsWhereItStops(b, ps, 0, kinds, None);
    StopIsBad(b, ps, 0, kinds, None);
  }

  lemma {:induction false} StopIsBad(b: seq<Byte>, ps: seq<nat>, k: nat, kinds: set<Byte>, limit: Option<nat>)
    requires k <= |ps| && InRange(b, ps)
    ensures var s := Stop(b, ps, k, kinds, limit); s < |ps| && !Landing(b, ps, s, kinds) ==> BadAt(b, ps, s, limit)
    decreases |ps| - k
  {
    if k < |ps| && !Landing(b, ps, k, kinds) && !BadAt(b, ps, k, limit) { StopIsBad(b, ps, k + 1, kinds, limit); }
  }

  // ---------------------------------------------------------------------- braces

  const MAX_BRACES := MAX_PARSE_DEPTH + 2

  /** Braces open after the first `k` code bytes inside a block, its own included. */
  function Braces(b: seq<Byte>, ps: seq<nat>, k: nat): int
    requires k <= |ps| && InRange(b, ps)
  {
    1 + Depth(b, ps, k, OPEN_BRACE, CLOSE_BRACE)
  }

  function BraceStop(b: seq<Byte>, ps: seq<nat>, k: nat): (r: nat)
    requires k <= |ps| && InRange(b, ps)
    ensures k <= r <= |ps|
    decreases |ps| - k
  {
    if k == |ps| || Braces(b, ps, k + 1) == 0 || Braces(b, ps, k + 1) > MAX_BRACES then k else BraceStop(b, ps, k + 1)
  }

  function BraceVerdict(b: seq<Byte>, ps: seq<nat>, k: nat): Result<nat, Refusal>
    requires k <= |ps| && InRange(b, ps)
  {
    if k == |ps| then Err(Invalid) else if Braces(b, ps, k + 1) == 0 then Ok(ps[k]) else Err(Limit)
  }

  /** The `k`-th code byte, at `p`, closes the block: the first point where as many braces are closed as opened. */
  predicate Closes(b: seq<Byte>, ps: seq<nat>, k: nat, p: nat)
    requires InRange(b, ps)
  {
    && k < |ps| && ps[k] == p && Braces(b, ps, k + 1) == 0
    && forall j | 0 <= j <= k :: 0 < Braces(b, ps, j) <= MAX_BRACES
  }

  /** The brace that closes the block opened at `open`. */
  function MatchingBrace(b: seq<Byte>, open: nat, end: nat): (r: Result<nat, Refusal>)
    requires end <= |b|
    ensures r.Ok? ==> open < r.value < end && b[r.value] == CLOSE_BRACE
  {
    var ps := Code(b, open + 1, end, None).code;
    CodeIsInOrder(b, open + 1, end, None);
    var r := BraceVerdict(b, ps, BraceStop(b, ps, 0));
    if r.Ok? then (MatchesTheBlock(b, open, end, r.value); r) else r
  }

  /** `find_matching_brace` */
  method FindMatchingBrace(b: seq<Byte>, open: nat, end: nat) returns (r: Result<nat, Refusal>)
    requires end <= |b|
    ensures r == MatchingBrace(b, open, end)
  {
    r := ScanBraces(b, open, end);
  }

  method ScanBraces(b: seq<Byte>, open: nat, end: nat) returns (r: Result<nat, Refusal>)
    requires end <= |b|
    ensures var ps := Code(b, open + 1, end, None).code;
            InRange(b, ps) && r == BraceVerdict(b, ps, BraceStop(b, ps, 0))
  {
    ghost var l := Code(b, open + 1, end, None);
    CodeIsInOrder(b, open + 1, end, None);
    var cursor := open + 1;
    var quote: Option<Byte> := None;
    var depth: nat := 1;
    ghost var k := 0;
    while cursor < end
      invariant Scanning(b, l, cursor, end, quote, k) && depth == Braces(b, l.code, k) && 0 < depth <= MAX_BRACES
      invariant BraceStop(b, l.code, 0) == BraceStop(b, l.code, k)
      decreases if cursor < end then end - cursor else 0
    {
      var next, onCode := Advance(b, cursor, end, quote, l, k);
      if !onCode {
        if next.None? { return Err(Invalid); }
        cursor, quote := next.value.0, next.value.1;
      } else {
        if b[cursor] == OPEN_BRACE {
          depth := depth + 1;
          if depth > MAX_BRACES { return Err(Limit); }
        } else if b[cursor] == CLOSE_BRACE {
          depth := depth - 1;
          if depth == 0 { return Ok(cursor); }
        }
        cursor := cursor + 1;
        k := k + 1;
      }
    }
    ScanEnd(b, l, cursor, end, quote, k);
    return Err(Invalid);
  }

  lemma ByOne(b: seq<Byte>, ps: seq<nat>, k: nat)
    requires k < |ps| && InRange(b, ps)
    ensures Braces(b, ps, k + 1) == Braces(b, ps, k)
                                    + (if b[ps[k]] == OPEN_BRACE then 1 else if b[ps[k]] == CLOSE_BRACE then -1 else 0)
  {
  }

  lemma {:induction false} BraceStopCloses(b: seq<Byte>, ps: seq<nat>, k: nat)
    requires k <= |ps| && InRange(b, ps) && (forall j | 0 <= j <= k :: 0 < Braces(b, ps, j) <= MAX_BRACES)
    ensures var s := BraceStop(b, ps, k);
            && (forall j | 0 <= j <= s :: 0 < Braces(b, ps, j) <= MAX_BRACES)
            && (s < |ps| ==> Braces(b, ps, s + 1) == 0 || Braces(b, ps, s + 1) > MAX_BRACES)
    decreases |ps| - k
  {
    if k < |ps| {
      ByOne(b, ps, k);
      if Braces(b, ps, k + 1) != 0 && Braces(b, ps, k + 1) <= MAX_BRACES { BraceStopCloses(b, ps, k + 1); }
    }
  }

  lemma {:induction false} ClosesOnce(b: seq<Byte>, ps: seq<nat>, k: nat, p: nat, stop: nat)
    requires InRange(b, ps) && Closes(b, ps, k, p) && stop <= |ps|
    requires forall j | 0 <= j <= stop :: 0 < Braces(b, ps, j) <= MAX_BRACES
    requires stop < |ps| ==> Braces(b, ps, stop + 1) == 0 || Braces(b, ps, stop + 1) > MAX_BRACES
    ensures k == stop
  {
  }

  /** The matching brace is exactly the code byte that first balances the block's own. */
  lemma MatchesTheBlock(b: seq<Byte>, open: nat, end: nat, p: nat)
    requires end <= |b|
    ensures var ps := Code(b, open + 1, end, None).code;
            && InRange(b, ps)
            && (BraceVerdict(b, ps, BraceStop(b, ps, 0)) == Ok(p) <==> exists k :: Closes(b, ps, k, p))
            && (BraceVerdict(b, ps, BraceStop(b, ps, 0)) == Ok(p) ==> open < p < end && b[p] == CLOSE_BRACE)
  {
    var ps := Code(b, open + 1, end, None).code;
    CodeIsInOrder(b, open + 1, end, None);
    BraceStopCloses(b, ps, 0);
    var stop := BraceStop(b, ps, 0);
    if stop < |ps| { ByOne(b, ps, stop); }
    if BraceVerdict(b, ps, stop) == Ok(p) { assert Closes(b, ps, stop, p); }
    if k :| Closes(b, ps, k, p) {
      ClosesOnce(b, ps, k, p, stop);
      assert Braces(b, ps, stop + 1) == 0;
    }
  }
}
