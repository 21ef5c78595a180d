/**
 * Which stylesheets are read at all: what a rule, a block and a declaration
 * have to look like, and how many there may be, without any parsing state.
 */
module CssAccepts {
  import opened Common
  import opened CssLexer
  import opened CssNormalize
  import opened CssGrammar
  import Utf8
  import T = CssText
  import C = CssCollapse

  // ------------------------------------------------------------------ names of at-rules

  /** The codes of letters, digits and the hyphen. */
  predicate WordCode(c: int) { c == 45 || 48 <= c < 58 || 65 <= c < 91 || 97 <= c < 123 }

  /** The same letter, in whatever case; the second one is small. */
  predicate SameLetter(c: char, small: char) {
    c == small || ('a' <= small <= 'z' && c as int + 32 == small as int)
  }

  /** The text is an at-rule of this name: the name stands behind the at sign, in whatever case, and ends there. */
  predicate Named(prelude: string, word: string) {
    && |word| < |prelude| && prelude[0] == '@'
    && (forall i | 0 <= i < |word| :: SameLetter(prelude[i + 1], word[i]))
    && (|prelude| > |word| + 1 ==> !WordCode(prelude[|word| + 1] as int))
  }

  /** Small letters and hyphens. */
  predicate IsWord(word: string) { word != "" && forall i | 0 <= i < |word| :: word[i] == '-' || 'a' <= word[i] <= 'z' }

  lemma {:induction false} NameEndsAt(s: string, i: nat, e: nat)
    requires i <= e <= |s| && (forall j | i <= j < e :: WordCode(s[j] as int)) && (e < |s| ==> !WordCode(s[e] as int))
    ensures NameEnd(s, i) == e
    decreases e - i
  {
    if i < e { NameEndsAt(s, i + 1, e); }
  }

  lemma {:induction false} NameEndIsEnd(s: string, i: nat)
    requires i <= |s|
    ensures var e := NameEnd(s, i);
            (forall j | i <= j < e :: WordCode(s[j] as int)) && (e < |s| ==> !WordCode(s[e] as int))
    decreases |s| - i
  {
    if i < |s| && WordCode(s[i] as int) { NameEndIsEnd(s, i + 1); }
  }

  lemma LetterIsSmall(c: char, small: char)
    requires small == '-' || 'a' <= small <= 'z'
    ensures LowerChar(c) == small <==> SameLetter(c, small)
    ensures SameLetter(c, small) ==> WordCode(c as int)
  {
  }

  lemma NameIsNamed(prelude: string, word: string)
    requires IsWord(word)
    ensures AtRuleName(prelude).Some? && Lower(AtRuleName(prelude).value) == word <==> Named(prelude, word)
  {
    hide LowerChar, SameLetter, WordCode, NameEnd;
    if AtRuleName(prelude).Some? && Lower(AtRuleName(prelude).value) == word {
      NameEndIsEnd(prelude, 1);
      forall i | 0 <= i < |word| ensures SameLetter(prelude[i + 1], word[i]) {
        LetterIsSmall(prelude[i + 1], word[i]);
        assert Lower(AtRuleName(prelude).value)[i] == LowerChar(prelude[i + 1]);
      }
    }
    if Named(prelude, word) {
      forall i | 0 <= i < |word| ensures WordCode(prelude[i + 1] as int) && LowerChar(prelude[i + 1]) == word[i] {
        LetterIsSmall(prelude[i + 1], word[i]);
      }
      forall j | 1 <= j < |word| + 1 ensures WordCode(prelude[j] as int) {
        var i := j - 1;
        assert SameLetter(prelude[i + 1], word[i]);
        LetterIsSmall(prelude[j], word[i]);
      }
      NameEndsAt(prelude, 1, |word| + 1);
      assert Lower(prelude[1..|word| + 1]) == word;
    }
  }

  // ---------------------------------------------------------------------- declarations

  ghost predicate HasName(text: string) { exists p :: PropertySays(text, p) }

  ghost predicate HasValue(text: string) { exists v, important :: ValueSays(text, v, important) }

  /** A segment with a property and a value around its first top-level colon, or without text. */
  ghost predicate IsSegment(s: string, at: nat, colon: Result<Option<nat>, Refusal>, e: nat) {
    match colon
    case Err(_) => false
    case Ok(None) => Blank(Slice(s, at, e))
    case Ok(Some(c)) => HasName(Slice(s, at, c)) && HasValue(Slice(s, c + 1, e))
  }

  /** Segments up to their semicolons, with blanks and closed comments between them. */
  ghost predicate IsBody(s: string, b: seq<Byte>, cursor: nat, end: nat)
    requires end <= |b|
    decreases if cursor < end then end - cursor else 0
  {
    cursor < end ==>
      match SkipBlank(b, cursor, end)
      case None => false
      case Some(at) =>
        at < end ==>
          match DeclarationEnd(b, at, end)
          case Err(_) => false
          case Ok(e) => IsSegment(s, at, TopLevelColon(b, at, e), e) && IsBody(s, b, e + 1, end)
  }

  /** The segments that have a colon. */
  ghost function Declared(b: seq<Byte>, cursor: nat, end: nat): nat
    requires end <= |b|
    decreases if cursor < end then end - cursor else 0
  {
    if cursor >= end || SkipBlank(b, cursor, end) in {None, Some(end)} then 0
    else
      var at := SkipBlank(b, cursor, end).value;
      match DeclarationEnd(b, at, end)
      case Err(_) => 0
      case Ok(e) =>
        var colon := TopLevelColon(b, at, e);
        (if colon.Ok? && colon.value.Some? then 1 else 0) + Declared(b, e + 1, end)
  }

  lemma SegmentIsTaken(s: string, b: seq<Byte>, at: nat, end: nat, selector: string, p: Progress)
    requires at < end <= |b|
    ensures DeclarationEnd(b, at, end).Err? ==> SegmentAt(s, b, at, end, selector, p).Err?
    ensures DeclarationEnd(b, at, end).Ok? ==>
              var e := DeclarationEnd(b, at, end).value;
              var colon := TopLevelColon(b, at, e);
              var n := if colon.Ok? && colon.value.Some? then 1 else 0;
              var r := SegmentAt(s, b, at, end, selector, p);
              && (r.Ok? <==> IsSegment(s, at, colon, e) && (n == 0 || |p.output| + n <= 4096))
              && (r.Ok? ==> r.value.0.rules == p.rules && |r.value.0.output| == |p.output| + n
                            && (r.value.1 == e + 1 || (r.value.1 == e == end)))
  {
    hide DeclarationEnd, TopLevelColon, PropertySays, ValueSays, NormalizeProperty, NormalizeValue, Slice, Blank;
    SegmentIsBy(s, b, at, end, selector, p);
    if DeclarationEnd(b, at, end).Ok? {
      var e := DeclarationEnd(b, at, end).value;
      var colon := TopLevelColon(b, at, e);
      if colon.Ok? && colon.value.Some? {
        var property, value := Slice(s, at, colon.value.value), Slice(s, colon.value.value + 1, e);
        forall q: string ensures NormalizeProperty(property) == Ok(q) <==> PropertySays(property, q) {
          PropertyIsSaid(property, q);
        }
        forall v: string, i: bool ensures NormalizeValue(value) == Ok((v, i)) <==> ValueSays(value, v, i) {
          ValueIsSaid(value, v, i);
        }
        NormalizedPair(value);
      }
    }
  }

  lemma NormalizedPair(value: string)
    ensures NormalizeValue(value).Ok? ==>
              NormalizeValue(value) == Ok((NormalizeValue(value).value.0, NormalizeValue(value).value.1))
  {
  }

  lemma {:induction false} BodyIsTaken(s: string, b: seq<Byte>, cursor: nat, end: nat, selector: string, p: Progress)
    requires end <= |b| && |p.output| <= 4096
    ensures var r := DeclarationsFrom(s, b, cursor, end, selector, p);
            var n := Declared(b, cursor, end);
            && (r.Ok? <==> IsBody(s, b, cursor, end) && |p.output| + n <= 4096)
            && (r.Ok? ==> r.value.rules == p.rules && |r.value.output| == |p.output| + n)
    decreases if cursor < end then end - cursor else 0
  {
    hide SegmentAt, IsSegment, DeclarationEnd, TopLevelColon;
    if cursor < end && SkipBlank(b, cursor, end).Some? && SkipBlank(b, cursor, end).value < end {
      var at := SkipBlank(b, cursor, end).value;
      SegmentIsTaken(s, b, at, end, selector, p);
      var r := SegmentAt(s, b, at, end, selector, p);
      if r.Ok? {
        BodyIsTaken(s, b, r.value.1, end, selector, r.value.0);
        var e := DeclarationEnd(b, at, end).value;
        if r.value.1 != e + 1 { assert IsBody(s, b, e + 1, end) && Declared(b, e + 1, end) == 0; }
      }
    }
  }

  // ------------------------------------------------------------------------------ rules

  const SKIPPED: seq<string> :=
    ["font-face", "keyframes", "-webkit-keyframes", "page", "property", "counter-style", "font-feature-values"]

  /** A prelude in normal form, 512 bytes at most. */
  predicate IsPrelude(text: string) { C.Normalize(text).Some? && |Utf8.Encode(C.Normalize(text).value)| <= 512 }

  function PreludeOf(text: string): string
    requires IsPrelude(text)
  {
    C.Normalize(text).value
  }

  /** A selector: not empty, 256 bytes at most, and every backslash of it in a string. */
  predicate IsSelector(normal: string) {
    && normal != "" && normal[0] != '@' && |Utf8.Encode(normal)| <= 256
    && forall i | 0 <= i < |normal| && normal[i] == '\\' :: T.StateAfter(normal[..i]).quote.Some?
  }

  predicate Nests(prelude: string) { Named(prelude, "media") || Named(prelude, "supports") }

  predicate Skips(prelude: string) { exists w | w in SKIPPED :: Named(prelude, w) }

  /**
   * Rules and character sets, one behind the other, with blanks between them
   * and behind them: blocks of declarations, skipped blocks, and blocks of
   * rules, nested at most 12 deep.
   */
  ghost predicate IsRules(s: string, b: seq<Byte>, cursor: nat, end: nat, depth: nat)
    requires cursor <= end <= |b|
    decreases end - cursor, 1
  {
    match SkipBlank(b, cursor, end)
    case None => false
    case Some(at) => at < end ==> IsRulesFrom(s, b, at, RuleBoundaryIn(b, at, end), end, depth)
  }

  ghost predicate IsRulesFrom(s: string, b: seq<Byte>, at: nat, boundary: Result<RuleBoundary, Refusal>, end: nat,
                              depth: nat)
    requires at < end <= |b| && (boundary.Ok? ==> boundary.value.AtEnd? || at <= boundary.value.at < end)
    decreases end - at, 0
  {
    match boundary
    case Err(_) => false
    case Ok(AtEnd) => Blank(Slice(s, at, end))
    case Ok(AtSemicolon(position)) => IsCharset(Slice(s, at, position)) && IsRules(s, b, position + 1, end, depth)
    case Ok(AtBlock(open)) =>
      match MatchingBrace(b, open, end)
      case Err(_) => false
      case Ok(close) =>
        && IsPrelude(Slice(s, at, open)) && IsBlock(s, b, PreludeOf(Slice(s, at, open)), open, close, depth)
        && IsRules(s, b, close + 1, end, depth)
  }

  ghost predicate IsBlock(s: string, b: seq<Byte>, prelude: string, open: nat, close: nat, depth: nat)
    requires open < close < |b|
    decreases close - open, 2
  {
    || (Nests(prelude) && depth < 12 && IsRules(s, b, open + 1, close, depth + 1))
    || Skips(prelude)
    || (IsSelector(prelude) && IsBody(s, b, open + 1, close))
  }

  predicate IsCharset(text: string) { IsPrelude(text) && Named(PreludeOf(text), "charset") }

  /** How many rules and declarations there are. */
  datatype Count = Count(rules: nat, declarations: nat) {
    function Plus(c: Count): Count { Count(rules + c.rules, declarations + c.declarations) }
  }

  ghost function Counted(s: string, b: seq<Byte>, cursor: nat, end: nat): Count
    requires cursor <= end <= |b|
    decreases end - cursor, 1
  {
    match SkipBlank(b, cursor, end)
    case None => Count(0, 0)
    case Some(at) => if at == end then Count(0, 0) else CountedFrom(s, b, at, RuleBoundaryIn(b, at, end), end)
  }

  ghost function CountedFrom(s: string, b: seq<Byte>, at: nat, boundary: Result<RuleBoundary, Refusal>, end: nat): Count
    requires at < end <= |b| && (boundary.Ok? ==> boundary.value.AtEnd? || at <= boundary.value.at < end)
    decreases end - at, 0
  {
    match boundary
    case Err(_) => Count(0, 0)
    case Ok(AtEnd) => Count(0, 0)
    case Ok(AtSemicolon(position)) => Count(1, 0).Plus(Counted(s, b, position + 1, end))
    case Ok(AtBlock(open)) =>
      match MatchingBrace(b, open, end)
      case Err(_) => Count(0, 0)
      case Ok(close) =>
        Count(1, 0).Plus(CountedIn(s, b, Slice(s, at, open), open, close)).Plus(Counted(s, b, close + 1, end))
  }

  ghost function CountedIn(s: string, b: seq<Byte>, text: string, open: nat, close: nat): Count
    requires open < close < |b|
    decreases close - open, 2
  {
    if IsPrelude(text) && Nests(PreludeOf(text)) then Counted(s, b, open + 1, close)
    else if IsPrelude(text) && Skips(PreludeOf(text)) then Count(0, 0)
    else Count(0, Declared(b, open + 1, close))
  }

  // ------------------------------------------------------------------------- the proofs

  ghost predicate Fits(p: Progress, n: Count) { p.rules + n.rules <= 512 && |p.output| + n.declarations <= 4096 }

  /** The region is read exactly when it is good and the budgets hold, and then this much more has been counted. */
  ghost predicate Takes(r: Result<Progress, Refusal>, p: Progress, good: bool, n: Count) {
    && (r.Ok? <==> good && Fits(p, n))
    && (r.Ok? ==> r.value.rules == p.rules + n.rules && |r.value.output| == |p.output| + n.declarations)
  }

  lemma PreludeIsTaken(text: string)
    ensures NormalizePrelude(text).Ok? <==> IsPrelude(text)
    ensures IsPrelude(text) ==> NormalizePrelude(text) == Ok(PreludeOf(text))
  {
  }

  lemma SkippedAreWords()
    ensures forall w | w in SKIPPED :: IsWord(w)
    ensures forall w :: w in SKIPPED <==> w in SKIPPED_RULES
  {
    assert forall i | 0 <= i < |SKIPPED| :: IsWord(SKIPPED[i]);
  }

  /** What an at-rule is named, by its name: one of those that nest, one of those that are skipped, or `charset`. */
  lemma NamesAreListed(prelude: string)
    ensures var name := AtRuleName(prelude);
            && (Nests(prelude) <==> name.Some? && Lower(name.value) in NESTED_RULES)
            && (Skips(prelude) <==> name.Some? && Lower(name.value) in SKIPPED_RULES)
            && (Named(prelude, "charset") <==> name.Some? && Lower(name.value) == "charset")
  {
    hide Named, Lower, AtRuleName, IsWord;
    SkippedAreWords();
    forall word: string | IsWord(word)
      ensures AtRuleName(prelude).Some? && Lower(AtRuleName(prelude).value) == word <==> Named(prelude, word)
    {
      NameIsNamed(prelude, word);
    }
    TheirNamesAreWords();
  }

  lemma TheirNamesAreWords()
    ensures IsWord("media") && IsWord("supports") && IsWord("charset")
  {
  }

  lemma SelectorIsTaken(text: string)
    requires IsPrelude(text) && !IsAtRule(PreludeOf(text))
    ensures NormalizeSelector(PreludeOf(text)).Some? <==> IsSelector(PreludeOf(text))
  {
    PreludeIsTaken(text);
    PreludeNormalizesOnce(text);
    SelectorOfPrelude(text, PreludeOf(text));
  }

  lemma StatementIsTaken(s: string, at: nat, position: nat, p: Progress)
    requires p.rules <= 512 && |p.output| <= 4096
    ensures Takes(StatementIn(s, at, position, p), p, IsCharset(Slice(s, at, position)), Count(1, 0))
  {
    hide Named, IsPrelude, PreludeOf, NormalizePrelude, AtRuleName;
    var text := Slice(s, at, position);
    PreludeIsTaken(text);
    if IsPrelude(text) {
      NamesAreListed(PreludeOf(text));
      NamedIsAtRule(PreludeOf(text));
    }
  }

  lemma NamedIsAtRule(prelude: string)
    ensures Nests(prelude) || Skips(prelude) || Named(prelude, "charset") ==> IsAtRule(prelude)
    ensures AtRuleName(prelude).Some? ==> IsAtRule(prelude)
    ensures IsSelector(prelude) ==> !IsAtRule(prelude)
  {
  }

  /** The rule at `at` and everything behind it. */
  function RestFrom(s: string, b: seq<Byte>, at: nat, end: nat, depth: nat, p: Progress): Result<Progress, Refusal>
    requires at < end <= |b|
  {
    match RuleAt(s, b, at, end, depth, p)
    case Err(refusal) => Err(refusal)
    case Ok((p', next)) => RulesFrom(s, b, next, end, depth, p')
  }

  lemma RestOfRules(s: string, b: seq<Byte>, cursor: nat, end: nat, depth: nat, p: Progress)
    requires cursor <= end <= |b|
    ensures RulesFrom(s, b, cursor, end, depth, p) ==
            match SkipBlank(b, cursor, end)
            case None => Err(Invalid)
            case Some(at) => if at == end then Ok(p) else RestFrom(s, b, at, end, depth, p)
  {
    hide RuleAt;
  }

  lemma RestOfText(s: string, b: seq<Byte>, at: nat, end: nat, depth: nat, p: Progress)
    requires at < end <= |b|
    ensures RuleBoundaryIn(b, at, end).Err? ==> RestFrom(s, b, at, end, depth, p).Err?
    ensures RuleBoundaryIn(b, at, end) == Ok(AtEnd) ==>
              RestFrom(s, b, at, end, depth, p) == if Blank(Slice(s, at, end)) then Ok(p) else Err(Invalid)
  {
    hide Blank, Slice, BlockAt, RulesFrom;
    assert SkipBlank(b, end, end) == Some(end);
    RestOfRules(s, b, end, end, depth, p);
    if RuleBoundaryIn(b, at, end) == Ok(AtEnd) {
      assert RuleAt(s, b, at, end, depth, p) == RuleBy(s, b, at, AtEnd, end, depth, p);
    }
  }

  lemma RestOfStatement(s: string, b: seq<Byte>, at: nat, position: nat, end: nat, depth: nat, p: Progress)
    requires at < end <= |b| && RuleBoundaryIn(b, at, end) == Ok(AtSemicolon(position))
    ensures RestFrom(s, b, at, end, depth, p) ==
            match StatementIn(s, at, position, p)
            case Err(refusal) => Err(refusal)
            case Ok(p') => RulesFrom(s, b, position + 1, end, depth, p')
  {
    hide StatementIn, RulesFrom;
    var r := RuleBy(s, b, at, AtSemicolon(position), end, depth, p);
    assert RuleAt(s, b, at, end, depth, p) == r;
    assert r == match StatementIn(s, at, position, p)
                case Err(refusal) => Err(refusal)
                case Ok(p') => Ok((p', position + 1));
  }

  /** The rule counts, then its block is found and read, then what is behind it. */
  lemma RestOfBlock(s: string, b: seq<Byte>, at: nat, open: nat, end: nat, depth: nat, p: Progress)
    requires at < end <= |b| && RuleBoundaryIn(b, at, end) == Ok(AtBlock(open))
    ensures MatchingBrace(b, open, end).Err? ==> RestFrom(s, b, at, end, depth, p).Err?
    ensures MatchingBrace(b, open, end).Ok? ==>
              var close := MatchingBrace(b, open, end).value;
              var one := OneRule(p);
              RestFrom(s, b, at, end, depth, p) ==
              if one.Err? then Err(one.error)
              else
                match BlockIn(s, b, at, open, close, depth, one.value)
                case Err(refusal) => Err(refusal)
                case Ok(p') => RulesFrom(s, b, close + 1, end, depth, p')
  {
    hide RulesFrom, BlockIn, OneRule, MatchingBrace;
    var r := RuleBy(s, b, at, AtBlock(open), end, depth, p);
    assert RuleAt(s, b, at, end, depth, p) == r;
    assert r == BlockAt(s, b, at, open, end, depth, p);
    if OneRule(p).Ok? {
      assert BlockAt(s, b, at, open, end, depth, p)
             == BracesAt(s, b, at, open, MatchingBrace(b, open, end), depth, OneRule(p).value);
    }
  }

  lemma {:induction false} NestedIsTaken(s: string, b: seq<Byte>, text: string, open: nat, close: nat, depth: nat,
                                         p: Progress)
    requires open < close < |b| && p.rules <= 512 && |p.output| <= 4096 && IsPrelude(text)
    requires IsAtRule(PreludeOf(text))
    ensures Takes(NamedBlock(s, b, AtRuleName(PreludeOf(text)), open, close, depth, p), p,
                  IsBlock(s, b, PreludeOf(text), open, close, depth), CountedIn(s, b, text, open, close))
    decreases close - open, 3
  {
    hide Named, IsPrelude, PreludeOf, AtRuleName, Lower, RulesFrom, IsRules, Counted, IsBody;
    NamesAreListed(PreludeOf(text));
    NamedIsAtRule(PreludeOf(text));
    RulesAreTaken(s, b, open + 1, close, depth + 1, p);
    assert Takes(Ok(p), p, true, Count(0, 0));
  }

  lemma {:induction false} BlockIsTaken(s: string, b: seq<Byte>, start: nat, open: nat, close: nat, depth: nat,
                                        p: Progress)
    requires start <= open < close < |b| && p.rules <= 512 && |p.output| <= 4096
    ensures var text := Slice(s, start, open);
            Takes(BlockIn(s, b, start, open, close, depth, p), p,
                  IsPrelude(text) && IsBlock(s, b, PreludeOf(text), open, close, depth),
                  CountedIn(s, b, text, open, close))
    decreases close - open, 4
  {
    hide Named, IsPrelude, PreludeOf, NamedBlock, DeclarationsFrom, IsRules, IsBody, Declared, Counted;
    hide NormalizePrelude, NormalizeSelector;
    var text := Slice(s, start, open);
    PreludeIsTaken(text);
    if IsPrelude(text) {
      NamedIsAtRule(PreludeOf(text));
      if IsAtRule(PreludeOf(text)) {
        NestedIsTaken(s, b, text, open, close, depth, p);
      } else {
        SelectorIsTaken(text);
        var selector := NormalizeSelector(PreludeOf(text));
        if selector.Some? { BodyIsTaken(s, b, open + 1, close, selector.value, p); }
      }
    }
  }

  lemma TakesBoth(q: Result<Progress, Refusal>, r: Result<Progress, Refusal>, p: Progress, good: bool, more: bool,
                  m: Count, n: Count)
    requires Takes(q, p, good, m) && (q.Ok? ==> Takes(r, q.value, more, n)) && (q.Err? ==> r.Err?)
    ensures Takes(r, p, good && more, m.Plus(n))
  {
  }

  lemma {:induction false} RulesAreTaken(s: string, b: seq<Byte>, cursor: nat, end: nat, depth: nat, p: Progress)
    requires cursor <= end <= |b| && p.rules <= 512 && |p.output| <= 4096
    ensures Takes(RulesFrom(s, b, cursor, end, depth, p), p, IsRules(s, b, cursor, end, depth),
                  Counted(s, b, cursor, end))
    decreases end - cursor, 2
  {
    hide IsRulesFrom, CountedFrom, RestFrom, RulesFrom;
    var at := SkipBlank(b, cursor, end);
    RestOfRules(s, b, cursor, end, depth, p);
    if at.Some? && at.value < end { RulesFromAreTaken(s, b, at.value, end, depth, p); }
  }

  lemma {:induction false} RulesFromAreTaken(s: string, b: seq<Byte>, at: nat, end: nat, depth: nat, p: Progress)
    requires at < end <= |b| && p.rules <= 512 && |p.output| <= 4096
    ensures var boundary := RuleBoundaryIn(b, at, end);
            Takes(RestFrom(s, b, at, end, depth, p), p, IsRulesFrom(s, b, at, boundary, end, depth),
                  CountedFrom(s, b, at, boundary, end))
    decreases end - at, 1
  {
    hide RestFrom, Slice, Blank, IsRules, Counted, IsCharset;
    RestOfText(s, b, at, end, depth, p);
    match RuleBoundaryIn(b, at, end) {
      case Err(_) =>
      case Ok(AtEnd) =>
      case Ok(AtSemicolon(position)) => CharsetIsTaken(s, b, at, position, end, depth, p);
      case Ok(AtBlock(open)) => RuleIsTaken(s, b, at, open, end, depth, p);
    }
  }

  lemma {:induction false} CharsetIsTaken(s: string, b: seq<Byte>, at: nat, position: nat, end: nat, depth: nat,
                                          p: Progress)
    requires at < end <= |b| && p.rules <= 512 && |p.output| <= 4096
    requires RuleBoundaryIn(b, at, end) == Ok(AtSemicolon(position))
    ensures Takes(RestFrom(s, b, at, end, depth, p), p,
                  IsCharset(Slice(s, at, position)) && IsRules(s, b, position + 1, end, depth),
                  Count(1, 0).Plus(Counted(s, b, position + 1, end)))
    decreases end - at, 0
  {
    hide IsRules, Counted, StatementIn, RulesFrom, IsCharset, RestFrom;
    RestOfStatement(s, b, at, position, end, depth, p);
    StatementIsTaken(s, at, position, p);
    var q := StatementIn(s, at, position, p);
    if q.Ok? { RulesAreTaken(s, b, position + 1, end, depth, q.value); }
    TakesBoth(q, RestFrom(s, b, at, end, depth, p), p, IsCharset(Slice(s, at, position)),
              IsRules(s, b, position + 1, end, depth), Count(1, 0), Counted(s, b, position + 1, end));
  }

  lemma {:induction false} RuleIsTaken(s: string, b: seq<Byte>, at: nat, open: nat, end: nat, depth: nat, p: Progress)
    requires at < end <= |b| && p.rules <= 512 && |p.output| <= 4096
    requires RuleBoundaryIn(b, at, end) == Ok(AtBlock(open))
    ensures var boundary := RuleBoundaryIn(b, at, end);
            Takes(RestFrom(s, b, at, end, depth, p), p, IsRulesFrom(s, b, at, boundary, end, depth),
                  CountedFrom(s, b, at, boundary, end))
    decreases end - at, 0
  {
    hide IsRules, Counted, IsBlock, CountedIn, BlockIn, RulesFrom, IsPrelude, PreludeOf, RestFrom;
    RestOfBlock(s, b, at, open, end, depth, p);
    var close := MatchingBrace(b, open, end);
    if close.Ok? {
      var one, text := OneRule(p), Slice(s, at, open);
      var good := IsPrelude(text) && IsBlock(s, b, PreludeOf(text), open, close.value, depth);
      var inside, behind := CountedIn(s, b, text, open, close.value), Counted(s, b, close.value + 1, end);
      assert Takes(one, p, true, Count(1, 0));
      var q := if one.Ok? then BlockIn(s, b, at, open, close.value, depth, one.value) else one;
      if one.Ok? { BlockIsTaken(s, b, at, open, close.value, depth, one.value); }
      TakesBoth(one, q, p, true, good, Count(1, 0), inside);
      if q.Ok? { RulesAreTaken(s, b, close.value + 1, end, depth, q.value); }
      TakesBoth(q, RestFrom(s, b, at, end, depth, p), p, good, IsRules(s, b, close.value + 1, end, depth),
                Count(1, 0).Plus(inside), behind);
    }
  }

  /**
   * A stylesheet is read exactly when it is a list of good rules, of at most
   * 512 KiB, 512 rules and 4096 declarations, and then it is read with all of
   * them counted.
   */
  lemma AcceptedIsGood(s: string)
    ensures var b := Utf8.Encode(s);
            var n := Counted(s, b, 0, |b|);
            && (Stylesheet(s).Ok? <==>
                  |b| <= 524288 && IsRules(s, b, 0, |b|, 0) && n.rules <= 512 && n.declarations <= 4096)
            && (Stylesheet(s).Ok? ==>
                  Stylesheet(s).value.rules == n.rules && |Stylesheet(s).value.output| == n.declarations)
  {
    hide IsRules, Counted, RulesFrom;
    RulesAreTaken(s, Utf8.Encode(s), 0, |Utf8.Encode(s)|, 0, Progress(0, []));
  }
}
