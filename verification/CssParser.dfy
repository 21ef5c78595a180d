/**
 * The stylesheet parser: rules nested in at-rules, declarations in rules, a
 * budget for both, and the position of every declaration.
 */
module CssParser {
  import opened Common
  import opened CssLexer
  import opened CssNormalize
  import opened CssGrammar
  import CssText
  import CssCollapse
  import P = CssPositions
  import Utf8

  // ------------------------------------------------------------- blanks and comments

  /** `skip_ws_comments` */
  method SkipWsComments(b: seq<Byte>, start: nat, end: nat) returns (r: Option<nat>)
    requires start <= end <= |b|
    ensures r == SkipBlank(b, start, end)
  {
    var cursor := start;
    while cursor < end
      invariant start <= cursor <= end && SkipBlank(b, start, end) == SkipBlank(b, cursor, end)
      decreases end - cursor
    {
      if IsBlankByte(b[cursor]) {
        cursor := cursor + 1;
      } else if b[cursor] == SLASH && cursor + 1 < end && b[cursor + 1] == STAR {
        var e := SkipComment(b, cursor, end);
        if e.None? { return None; }
        cursor := e.value;
      } else {
        return Some(cursor);
      }
    }
    return Some(cursor);
  }

  /** `first_non_ws_comment` */
  method FirstNonWsComment(b: seq<Byte>, start: nat, end: nat) returns (r: Result<Option<nat>, Refusal>)
    requires start <= end <= |b|
    ensures r == match SkipBlank(b, start, end)
                 case None => Err(Invalid)
                 case Some(at) => Ok(if at < end then Some(at) else None)
  {
    var at := SkipWsComments(b, start, end);
    if at.None? { return Err(Invalid); }
    return Ok(if at.value < end then Some(at.value) else None);
  }

  // ------------------------------------------------------------------ the parser

  /** The position is that of the character at the offset, which is not a line break. */
  predicate Positioned(s: string, d: Declaration, i: nat) {
    i < |s| && P.StartsAt(s, i, d.offset) && d.position == P.PositionAt(s, i) && s[i] != '\n'
  }

  /** Declarations one after the other in the source. */
  predicate InOrder(out: seq<Declaration>) {
    forall j, k | 0 <= j < k < |out| :: out[j].offset < out[k].offset
  }

  predicate UpTo(out: seq<Declaration>, limit: nat) {
    forall k | 0 <= k < |out| :: out[k].offset < limit
  }

  ghost predicate HasPosition(s: string, d: Declaration) { exists i :: Positioned(s, d, i) }

  ghost predicate AllPositioned(s: string, out: seq<Declaration>) {
    forall k | 0 <= k < |out| :: HasPosition(s, out[k])
  }

  class Parser {
    const source: string
    const bytes: seq<Byte>
    var rules: nat
    var declarations: nat
    var output: seq<Declaration>

    /** Output in source order, positioned, and both counts within budget. */
    ghost predicate Valid()
      reads this
    {
      && bytes == Utf8.Encode(source)
      && rules <= MAX_PARSED_RULES && declarations <= MAX_PARSED_DECLARATIONS && |output| == declarations
      && InOrder(output) && AllPositioned(source, output)
    }

    /** The progress made, as the grammar counts it. */
    function Now(): Progress
      reads this
    {
      Progress(rules, output)
    }

    /** The grammar agrees with how a call ended: in this state, or with this refusal. */
    ghost predicate Gives(spec: Result<Progress, Refusal>, r: Option<Refusal>)
      reads this
    {
      if r.None? then spec == Ok(Now()) else spec == Err(r.value)
    }

    /** How a call ended that says where to go on. */
    function Ended(r: Option<Refusal>, next: nat): Result<(Progress, nat), Refusal>
      reads this
    {
      if r.None? then Ok((Now(), next)) else Err(r.value)
    }

    constructor (source: string)
      ensures Valid() && this.source == source && Now() == Progress(0, [])
    {
      this.source, bytes := source, Utf8.Encode(source);
      rules, declarations, output := 0, 0, [];
    }

    /** `source[from..to]` */
    method Text(from: nat, to: nat) returns (text: string)
      requires bytes == Utf8.Encode(source) && from <= to && P.Boundary(source, from) && P.Boundary(source, to)
      ensures text == Slice(source, from, to)
    {
      text := Slice(source, from, to);
    }

    /** The position of a solid byte at a boundary. */
    method PositionOf(offset: nat, end: nat) returns (p: P.Position, ghost i: nat)
      requires bytes == Utf8.Encode(source) && offset < end <= |bytes| && P.Boundary(source, offset)
      requires Solid(bytes, offset, end)
      ensures i < |source| && P.StartsAt(source, i, offset) && source[i] != '\n'
      ensures i == CharIndex(source, offset) && p == P.PositionAt(source, i)
    {
      i := P.IndexAt(source, offset);
      CharIndexOf(source, i, offset);
      assert source[..|source|] == source;
      P.EncodePrefix(source, i);
      P.EncodeSplit(source, i + 1);
      assert bytes[offset] == Utf8.EncodeChar(source[i])[0];
      p := P.LineColumns(source, CharIndex(source, offset));
    }

    /** One segment that has a colon: normalise both sides, take the position, spend the budget, push. */
    method ParseDeclaration(start: nat, colon: nat, segmentEnd: nat, limit: nat, selector: string)
      returns (r: Option<Refusal>)
      requires Valid() && start <= colon < segmentEnd <= limit <= |bytes| && Solid(bytes, start, limit)
      requires P.Boundary(source, start) && P.Boundary(source, colon) && P.Boundary(source, colon + 1)
      requires P.Boundary(source, segmentEnd)
      requires UpTo(output, start)
      modifies this
      ensures rules == old(rules)
      ensures Gives(DeclarationIn(source, start, colon, segmentEnd, selector, old(Now())), r)
      ensures r.None? ==> Valid() && UpTo(output, start + 1) && old(output) <= output
    {
      var left := Text(start, colon);
      var property := NormalizeProperty(left);
      if property.Err? { return Some(property.error); }
      EmptyIsNoProperty(source, start, colon);
      var right := Text(colon + 1, segmentEnd);
      var value := NormalizeValue(right);
      if value.Err? { return Some(value.error); }
      SolidStays(bytes, start, colon, limit);
      var at := FirstNonWsComment(bytes, start, colon);
      var position, i := PositionOf(at.value.value, limit);
      var d := Declaration(selector, property.value, value.value.0, value.value.1, position, start);
      r := Push(d, i);
    }

    /** Spend the budget, then push. */
    method Push(d: Declaration, ghost i: nat) returns (r: Option<Refusal>)
      requires Valid() && UpTo(output, d.offset) && Positioned(source, d, i)
      modifies this
      ensures rules == old(rules)
      ensures r == if |old(output)| >= MAX_PARSED_DECLARATIONS then Some(Limit) else None
      ensures r.None? ==> Valid() && output == old(output) + [d]
    {
      declarations := declarations + 1;
      if declarations > MAX_PARSED_DECLARATIONS { return Some(Limit); }
      PositionedAppend(source, output, d, i);
      output := output + [d];
      return None;
    }

    /** One segment of a block, from something solid to its semicolon or the end of the block. */
    method ParseSegment(start: nat, end: nat, selector: string) returns (r: Option<Refusal>, next: nat)
      requires Valid() && start < end <= |bytes| && P.Boundary(source, start) && P.Boundary(source, end)
      requires UpTo(output, start)
      requires Solid(bytes, start, end)
      modifies this
      ensures rules == old(rules)
      ensures SegmentAt(source, bytes, start, end, selector, old(Now())) == Ended(r, next)
      ensures r.None? ==> Valid() && UpTo(output, if next < end then next else end) && old(output) <= output
      ensures r.None? ==> start < next && (next <= end ==> P.Boundary(source, next))
    {
      hide DeclarationEnd, TopLevelColon, SegmentBy, SegmentAt, Solid;
      SegmentIsBy(source, bytes, start, end, selector, Now());
      next := start;
      var found := LocateDeclarationEnd(start, end);
      if found.Err? {
        return Some(found.error), next;
      }
      var segmentEnd := found.value;
      var colon := LocateColon(start, segmentEnd);
      if colon.Err? {
        return Some(colon.error), next;
      }
      r, next := ParseSegmentBy(start, colon.value, segmentEnd, end, selector);
    }

    /** The same, once its end and its colon are known. */
    method ParseSegmentBy(start: nat, colon: Option<nat>, segmentEnd: nat, end: nat, selector: string)
      returns (r: Option<Refusal>, next: nat)
      requires Valid() && start <= segmentEnd <= end <= |bytes| && start < end && Solid(bytes, start, end)
      requires P.Boundary(source, start) && P.Boundary(source, segmentEnd) && UpTo(output, start)
      requires segmentEnd < end ==> P.Boundary(source, segmentEnd + 1)
      requires colon.Some? ==> start <= colon.value < segmentEnd
                               && P.Boundary(source, colon.value) && P.Boundary(source, colon.value + 1)
      modifies this
      ensures rules == old(rules)
      ensures SegmentBy(source, start, colon, segmentEnd, end, selector, old(Now())) == Ended(r, next)
      ensures r.None? ==> Valid() && UpTo(output, if next < end then next else end) && old(output) <= output
      ensures r.None? ==> start < next && (next <= end ==> P.Boundary(source, next))
    {
      next := start;
      if colon.None? {
        var rest := Text(start, segmentEnd);
        if !Blank(rest) { return Some(Unsupported), next; }
        return None, segmentEnd + 1;
      }
      r := ParseDeclaration(start, colon.value, segmentEnd, end, selector);
      next := if segmentEnd < end then segmentEnd + 1 else segmentEnd;
    }

    /** Where a segment ends, between two characters. */
    method LocateDeclarationEnd(start: nat, end: nat) returns (r: Result<nat, Refusal>)
      requires bytes == Utf8.Encode(source) && start < end <= |bytes| && P.Boundary(source, end)
      ensures DeclarationEnd(bytes, start, end) == r
      ensures r.Ok? ==> start <= r.value <= end && P.Boundary(source, r.value)
                        && (r.value < end ==> P.Boundary(source, r.value + 1))
    {
      r := FindDeclarationEnd(bytes, start, end);
      if r.Ok? { DelimiterIsBoundary(source, bytes, r.value, end); }
    }

    /** Where its colon is, between two characters. */
    method LocateColon(start: nat, end: nat) returns (r: Result<Option<nat>, Refusal>)
      requires bytes == Utf8.Encode(source) && start <= end <= |bytes|
      ensures TopLevelColon(bytes, start, end) == r
      ensures r.Ok? && r.value.Some? ==>
                && start <= r.value.value < end
                && P.Boundary(source, r.value.value) && P.Boundary(source, r.value.value + 1)
    {
      r := FindTopLevelColon(bytes, start, end);
      if r.Ok? && r.value.Some? { EdgesOfAscii(source, r.value.value); }
    }

    /** What is next in a block: past the blanks, one segment if there is one. */
    method ParseNextSegment(cursor: nat, end: nat, selector: string) returns (r: Option<Refusal>, next: nat)
      requires Valid() && cursor < end <= |bytes| && P.Boundary(source, cursor) && P.Boundary(source, end)
      requires UpTo(output, cursor)
      modifies this
      ensures rules == old(rules)
      ensures r.None? ==> DeclarationsFrom(source, bytes, cursor, end, selector, old(Now()))
                           == DeclarationsFrom(source, bytes, next, end, selector, Now())
      ensures r.Some? ==> DeclarationsFrom(source, bytes, cursor, end, selector, old(Now())) == Err(r.value)
      ensures r.None? ==> Valid() && UpTo(output, if next < end then next else end) && old(output) <= output
      ensures r.None? ==> cursor < next && (next <= end ==> P.Boundary(source, next))
    {
      hide DeclarationsFrom, SegmentAt;
      next := end;
      SegmentsSkip(source, bytes, cursor, end, selector, Now());
      var skipped := SkipWsComments(bytes, cursor, end);
      if skipped.None? { return Some(Invalid), next; }
      StillBoundary(source, bytes, cursor, skipped.value);
      BlankIsNothing(bytes, cursor, end);
      if skipped.value >= end { return None, next; }
      SegmentsGoOn(source, bytes, skipped.value, end, selector, Now());
      r, next := ParseSegment(skipped.value, end, selector);
    }

    /** `parse_declarations` */
    method ParseDeclarations(start: nat, end: nat, selector: string) returns (r: Option<Refusal>)
      requires Valid() && start <= end <= |bytes| && P.Boundary(source, start) && P.Boundary(source, end)
      requires UpTo(output, start)
      modifies this
      ensures rules == old(rules)
      ensures DeclarationsFrom(source, bytes, start, end, selector, old(Now()))
              == (if r.None? then Ok(Now()) else Err(r.value))
      ensures r.None? ==> Valid() && UpTo(output, end) && old(output) <= output
    {
      hide DeclarationsFrom;
      var cursor := start;
      while cursor < end
        invariant Valid() && rules == old(rules) && old(output) <= output
        invariant start <= cursor && (cursor <= end ==> P.Boundary(source, cursor))
        invariant UpTo(output, if cursor < end then cursor else end)
        invariant DeclarationsFrom(source, bytes, start, end, selector, old(Now()))
                  == DeclarationsFrom(source, bytes, cursor, end, selector, Now())
        decreases if cursor < end then end - cursor else 0
      {
        r, cursor := ParseNextSegment(cursor, end, selector);
        if r.Some? { return; }
      }
      SegmentsEnd(source, bytes, cursor, end, selector, Now());
      return None;
    }

    method SpendRule() returns (r: Option<Refusal>)
      requires Valid()
      modifies this`rules
      ensures Gives(OneRule(old(Now())), r)
      ensures r.None? ==> Valid() && rules == old(rules) + 1
    {
      rules := rules + 1;
      return if rules > MAX_PARSED_RULES then Some(Limit) else None;
    }

    /** A statement without a block: only `@charset` is let through. */
    method TakeStatement(start: nat, position: nat) returns (r: Option<Refusal>)
      requires Valid() && start <= position && P.Boundary(source, start) && P.Boundary(source, position)
      modifies this`rules
      ensures Gives(StatementIn(source, start, position, old(Now())), r)
      ensures r.None? ==> Valid() && rules == old(rules) + 1
    {
      var text := Text(start, position);
      var prelude := NormalizePrelude(text);
      if prelude.Err? { return Some(prelude.error); }
      if !IsAtRule(prelude.value) { return Some(Unsupported); }
      r := SpendRule();
      if r.Some? { return; }
      var name := AtRuleName(prelude.value);
      if name.None? || Lower(name.value) != "charset" { return Some(Unsupported); }
    }

    /** The same as one rule of a region. */
    method ParseStatement(start: nat, position: nat, end: nat, depth: nat) returns (r: Option<Refusal>, next: nat)
      requires Valid() && start <= position < end <= |bytes| && P.Boundary(source, start)
      requires P.Boundary(source, position)
      modifies this`rules
      ensures next == position + 1
      ensures RuleBy(source, bytes, start, AtSemicolon(position), end, depth, old(Now())) == Ended(r, next)
      ensures r.None? ==> Valid() && old(rules) <= rules
    {
      hide StatementIn;
      next := position + 1;
      r := TakeStatement(start, position);
    }

    /** A block: nested rules, a block that is skipped, or the declarations of a selector. */
    method ParseBlock(start: nat, open: nat, end: nat, depth: nat) returns (r: Option<Refusal>, next: nat)
      requires Valid() && start <= open < end <= |bytes|
      requires P.Boundary(source, start) && P.Boundary(source, open) && P.Boundary(source, open + 1)
      requires UpTo(output, start)
      modifies this
      ensures BlockAt(source, bytes, start, open, end, depth, old(Now())) == Ended(r, next)
      ensures r.None? ==> Valid() && old(output) <= output && old(rules) <= rules
      ensures r.None? ==> open < next <= end && P.Boundary(source, next) && UpTo(output, next)
      decreases end - start, 1
    {
      hide MatchingBrace, BracesAt;
      next := open;
      r := SpendRule();
      if r.Some? { return; }
      var close := FindClose(open, end);
      r, next := ParseBraces(start, open, close, depth);
    }

    /** The block itself, once its rule has been counted and its end looked for. */
    method ParseBraces(start: nat, open: nat, close: Result<nat, Refusal>, depth: nat)
      returns (r: Option<Refusal>, next: nat)
      requires Valid() && start <= open && P.Boundary(source, start) && P.Boundary(source, open)
      requires UpTo(output, open + 1)
      requires close.Ok? ==> open < close.value < |bytes| && P.Boundary(source, open + 1)
                             && P.Boundary(source, close.value) && P.Boundary(source, close.value + 1)
      modifies this
      ensures BracesAt(source, bytes, start, open, close, depth, old(Now())) == Ended(r, next)
      ensures r.None? ==> Valid() && old(output) <= output && old(rules) <= rules
      ensures r.None? ==> close.Ok? && next == close.value + 1 && UpTo(output, next)
      decreases if close.Ok? then close.value - open else 0, 2
    {
      next := open;
      if close.Err? { return Some(close.error), next; }
      next := close.value + 1;
      r := ParseBlockBody(start, open, close.value, depth);
    }

    /** The block of an at-rule. */
    method ParseNamedBlock(name: Option<string>, open: nat, close: nat, depth: nat) returns (r: Option<Refusal>)
      requires Valid() && open < close < |bytes| && P.Boundary(source, open + 1) && P.Boundary(source, close)
      requires UpTo(output, open + 1)
      modifies this
      ensures Gives(NamedBlock(source, bytes, name, open, close, depth, old(Now())), r)
      ensures r.None? ==> Valid() && UpTo(output, close) && old(output) <= output && old(rules) <= rules
      decreases close - open, 0
    {
      if name.None? { return Some(Unsupported); }
      var word := Lower(name.value);
      if word in NESTED_RULES {
        r := ParseRuleList(open + 1, close, depth + 1);
      } else {
        r := if word in SKIPPED_RULES then None else Some(Unsupported);
      }
    }

    /** What is between the braces. */
    method ParseBlockBody(start: nat, open: nat, close: nat, depth: nat) returns (r: Option<Refusal>)
      requires Valid() && start <= open < close < |bytes| && P.Boundary(source, start) && P.Boundary(source, open)
      requires P.Boundary(source, open + 1) && P.Boundary(source, close) && UpTo(output, open + 1)
      modifies this
      ensures Gives(BlockIn(source, bytes, start, open, close, depth, old(Now())), r)
      ensures r.None? ==> Valid() && UpTo(output, close) && old(output) <= output && old(rules) <= rules
      decreases close - open, 1
    {
      var text := Text(start, open);
      var prelude := NormalizePrelude(text);
      if prelude.Err? { return Some(prelude.error); }
      if IsAtRule(prelude.value) {
        r := ParseNamedBlock(AtRuleName(prelude.value), open, close, depth);
      } else {
        var selector := NormalizeSelector(prelude.value);
        if selector.None? { return Some(Unsupported); }
        r := ParseDeclarations(open + 1, close, selector.value);
      }
    }

    method FindClose(open: nat, end: nat) returns (r: Result<nat, Refusal>)
      requires bytes == Utf8.Encode(source) && open < end <= |bytes|
      ensures MatchingBrace(bytes, open, end) == r
      ensures r.Ok? ==> open < r.value < end && P.Boundary(source, r.value) && P.Boundary(source, r.value + 1)
    {
      r := FindMatchingBrace(bytes, open, end);
      if r.Ok? { EdgesOfAscii(source, r.value); }
    }

    /** What ends the prelude, between two characters. */
    method LocateBoundary(start: nat, end: nat) returns (r: Result<RuleBoundary, Refusal>)
      requires bytes == Utf8.Encode(source) && start < end <= |bytes|
      ensures RuleBoundaryIn(bytes, start, end) == r
      ensures r.Ok? && !r.value.AtEnd? ==>
                start <= r.value.at < end && P.Boundary(source, r.value.at) && P.Boundary(source, r.value.at + 1)
    {
      r := FindRuleBoundary(bytes, start, end);
      if r.Ok? && !r.value.AtEnd? { EdgesOfAscii(source, r.value.at); }
    }

    /** One rule or statement. */
    method ParseRule(start: nat, end: nat, depth: nat) returns (r: Option<Refusal>, next: nat)
      requires Valid() && start < end <= |bytes| && P.Boundary(source, start) && P.Boundary(source, end)
      requires UpTo(output, start)
      modifies this
      ensures RuleAt(source, bytes, start, end, depth, old(Now())) == Ended(r, next)
      ensures r.None? ==> Valid() && old(output) <= output && old(rules) <= rules
      ensures r.None? ==> start < next <= end && P.Boundary(source, next) && UpTo(output, next)
      decreases end - start, 3
    {
      hide RuleBoundaryIn, RuleBy;
      next := end;
      var found := LocateBoundary(start, end);
      if found.Err? {
        return Some(found.error), next;
      }
      r, next := ParseRuleBy(start, found.value, end, depth);
    }

    /** The same, once it is known what ends the prelude. */
    method ParseRuleBy(start: nat, boundary: RuleBoundary, end: nat, depth: nat) returns (r: Option<Refusal>, next: nat)
      requires Valid() && start < end <= |bytes| && P.Boundary(source, start) && P.Boundary(source, end)
      requires UpTo(output, start)
      requires boundary.AtEnd?
               || (start <= boundary.at < end && P.Boundary(source, boundary.at) && P.Boundary(source, boundary.at + 1))
      modifies this
      ensures RuleBy(source, bytes, start, boundary, end, depth, old(Now())) == Ended(r, next)
      ensures r.None? ==> Valid() && old(output) <= output && old(rules) <= rules
      ensures r.None? ==> start < next <= end && P.Boundary(source, next) && UpTo(output, next)
      decreases end - start, 2
    {
      hide BlockAt, StatementIn;
      next := end;
      match boundary {
        case AtSemicolon(position) =>
          r, next := ParseStatement(start, position, end, depth);
        case AtBlock(open) =>
          r, next := ParseBlock(start, open, end, depth);
        case AtEnd =>
          var rest := Text(start, end);
          r := if Blank(rest) then None else Some(Invalid);
      }
    }

    /** What is next in a region: past the blanks, one rule if there is one. */
    method ParseNextRule(cursor: nat, end: nat, depth: nat) returns (r: Option<Refusal>, next: nat)
      requires Valid() && cursor < end <= |bytes| && P.Boundary(source, cursor) && P.Boundary(source, end)
      requires UpTo(output, cursor)
      modifies this
      ensures r.None? ==> cursor < next <= end
      ensures r.None? ==> RulesFrom(source, bytes, cursor, end, depth, old(Now()))
                          == RulesFrom(source, bytes, next, end, depth, Now())
      ensures r.Some? ==> RulesFrom(source, bytes, cursor, end, depth, old(Now())) == Err(r.value)
      ensures r.None? ==> Valid() && UpTo(output, next) && old(output) <= output && old(rules) <= rules
      ensures r.None? ==> P.Boundary(source, next)
      decreases end - cursor, 4
    {
      hide RulesFrom, RuleAt;
      next := end;
      RulesSkip(source, bytes, cursor, end, depth, Now());
      var skipped := SkipWsComments(bytes, cursor, end);
      if skipped.None? { return Some(Invalid), next; }
      StillBoundary(source, bytes, cursor, skipped.value);
      BlankIsNothing(bytes, cursor, end);
      RulesSkip(source, bytes, skipped.value, end, depth, Now());
      if skipped.value >= end { return None, next; }
      RulesGoOn(source, bytes, skipped.value, end, depth, Now());
      r, next := ParseRule(skipped.value, end, depth);
    }

    /** The loop over the rules of a region. */
    method ParseRules(start: nat, end: nat, depth: nat) returns (r: Option<Refusal>)
      requires Valid() && start <= end <= |bytes| && P.Boundary(source, start) && P.Boundary(source, end)
      requires UpTo(output, start)
      modifies this
      ensures RulesFrom(source, bytes, start, end, depth, old(Now())) == (if r.None? then Ok(Now()) else Err(r.value))
      ensures r.None? ==> Valid() && UpTo(output, end) && old(output) <= output && old(rules) <= rules
      decreases end - start, 5
    {
      hide RulesFrom;
      var cursor := start;
      while cursor < end
        invariant Valid() && old(output) <= output && old(rules) <= rules
        invariant start <= cursor <= end && P.Boundary(source, cursor) && UpTo(output, cursor)
        invariant RulesFrom(source, bytes, start, end, depth, old(Now()))
                  == RulesFrom(source, bytes, cursor, end, depth, Now())
        decreases end - cursor
      {
        r, cursor := ParseNextRule(cursor, end, depth);
        if r.Some? { return; }
      }
      RulesSkip(source, bytes, cursor, end, depth, Now());
      return None;
    }

    /** `parse_rule_list` */
    method ParseRuleList(start: nat, end: nat, depth: nat) returns (r: Option<Refusal>)
      requires Valid() && start <= end <= |bytes| && P.Boundary(source, start) && P.Boundary(source, end)
      requires UpTo(output, start)
      modifies this
      ensures Gives(RuleList(source, bytes, start, end, depth, old(Now())), r)
      ensures r.None? ==> Valid() && UpTo(output, end) && old(output) <= output && old(rules) <= rules
      decreases end - start, 6
    {
      if depth > MAX_PARSE_DEPTH { return Some(Limit); }
      r := ParseRules(start, end, depth);
    }
  }

  // -------------------------------------------------------------------- stylesheets

  /** Strictly later in lines and columns, counted in characters and in UTF-16 units alike. */
  predicate StrictlyPlaced(out: seq<Declaration>) {
    forall j, k | 0 <= j < k < |out| :: P.Before(out[j].position, out[k].position)
  }

  /** Source order is order of position: no two declarations share a line and column. */
  lemma OrderIsPlace(s: string, out: seq<Declaration>)
    requires InOrder(out) && AllPositioned(s, out)
    ensures StrictlyPlaced(out)
  {
    forall j, k | 0 <= j < k < |out| ensures P.Before(out[j].position, out[k].position) {
      assert HasPosition(s, out[j]) && HasPosition(s, out[k]);
      var a :| Positioned(s, out[j], a);
      var b :| Positioned(s, out[k], b);
      LaterStarts(s, a, b, out[j].offset, out[k].offset);
      P.PositionsIncrease(s, a, b);
    }
  }

  lemma LaterStarts(s: string, a: nat, b: nat, m: nat, n: nat)
    requires P.StartsAt(s, a, m) && P.StartsAt(s, b, n) && m < n
    ensures a < b
  {
    if b <= a { P.OffsetsIncrease(s, b, a); }
  }

  /**
   * `parse_stylesheet`: exactly what the grammar gives; and whatever is
   * accepted, its declarations come out in source order at strictly increasing
   * positions, within both budgets.
   */
  method ParseStylesheet(source: string) returns (r: Result<seq<Declaration>, Refusal>)
    ensures match Stylesheet(source)
            case Ok(p) => r == Ok(p.output) && p.rules <= MAX_PARSED_RULES && |p.output| <= MAX_PARSED_DECLARATIONS
            case Err(refusal) => r == Err(refusal)
    ensures r.Ok? ==> InOrder(r.value) && AllPositioned(source, r.value) && StrictlyPlaced(r.value)
    ensures r.Ok? ==> forall d :: d in r.value <==> Written(source, d)
  {
    if |Utf8.Encode(source)| > MAX_CSS_FILE_BYTES { return Err(Limit); }
    var parser := new Parser(source);
    Ends(source);
    var refused := parser.ParseRuleList(0, |parser.bytes|, 0);
    if refused.Some? { return Err(refused.value); }
    OrderIsPlace(source, parser.output);
    forall d: Declaration ensures d in parser.output <==> Written(source, d) { FoundIsWritten(source, d); }
    return Ok(parser.output);
  }

  /** What is solid in a region is solid in a shorter one. */
  lemma SolidStays(b: seq<Byte>, start: nat, end: nat, limit: nat)
    requires start < end <= limit <= |b| && Solid(b, start, limit)
    ensures Solid(b, start, end)
  {
  }

  lemma StillBoundary(s: string, b: seq<Byte>, from: nat, to: nat)
    requires b == Utf8.Encode(s) && from <= to <= |b| && P.Boundary(s, from) && (to == from || b[to - 1] < 0x80)
    ensures P.Boundary(s, to)
  {
    if to != from { EdgesOfAscii(s, to - 1); }
  }

  lemma DelimiterIsBoundary(s: string, b: seq<Byte>, at: nat, end: nat)
    requires b == Utf8.Encode(s) && at <= end <= |b| && P.Boundary(s, end) && (at < end ==> b[at] < 0x80)
    ensures P.Boundary(s, at) && (at < end ==> P.Boundary(s, at + 1))
  {
    if at < end { EdgesOfAscii(s, at); }
  }

  lemma PositionedAppend(s: string, out: seq<Declaration>, d: Declaration, i: nat)
    requires AllPositioned(s, out) && Positioned(s, d, i)
    ensures AllPositioned(s, out + [d])
  {
    assert HasPosition(s, d);
  }

  /** Nothing before the colon is no property. */
  lemma EmptyIsNoProperty(s: string, start: nat, colon: nat)
    requires start <= colon && P.Boundary(s, start) && P.Boundary(s, colon)
    requires NormalizeProperty(Slice(s, start, colon)).Ok?
    ensures start < colon
  {
    SliceInRange(s, start, colon);
    var text := Slice(s, start, colon);
    assert start == colon ==> text == "";
    assert CssText.Strip("") == Some("") && CssCollapse.Trim("") == "";
    assert NormalizeProperty("") == Err(Unsupported);
  }
}
