/** What the parser makes of preludes, selectors, properties and values. */
module CssNormalize {
  import opened Common
  import opened CssText
  import opened CssCollapse
  import opened CssLexer
  import P = CssPositions
  import Utf8

  const MAX_PROPERTY_BYTES := 64
  const MAX_SOURCE_VALUE_BYTES := 1024

  function Width(s: string): nat { |Utf8.Encode(s)| }

  predicate IsAlnum(c: char) { '0' <= c <= '9' || 'a' <= c <= 'z' || 'A' <= c <= 'Z' }

  function LowerChar(c: char): char { if 'A' <= c <= 'Z' then (c as int + 32) as char else c }

  function Lower(s: string): string { seq(|s|, i requires 0 <= i < |s| => LowerChar(s[i])) }

  /** `normalize_prelude` */
  function NormalizePrelude(s: string): Result<string, Refusal> {
    match Normalize(s)
    case None => Err(Invalid)
    case Some(n) => if Width(n) > 2 * MAX_SELECTOR_BYTES then Err(Limit) else Ok(n)
  }

  /** A backslash outside strings, which the selectors compared with never have. */
  predicate UnquotedBackslash(s: string) {
    exists i | 0 <= i < |s| :: Outside(s, i) && s[i] == '\\'
  }

  /** `contains_unquoted_backslash` */
  method ContainsUnquotedBackslash(s: string) returns (found: bool)
    ensures found == UnquotedBackslash(s)
  {
    var quote: Option<char> := None;
    var escaped := false;
    for i := 0 to |s|
      invariant StateAfter(s[..i]) == State(quote, escaped)
      invariant forall j | 0 <= j < i :: !(Outside(s, j) && s[j] == '\\')
    {
      var c := s[i];
      assert s[..i + 1] == s[..i] + [c];
      StateAppend(s[..i], c);
      if quote.Some? {
        if escaped { escaped := false; }
        else if c == '\\' { escaped := true; }
        else if c == quote.value { quote := None; }
      } else if CssText.IsQuote(c) {
        quote, escaped := Some(c), false;
      } else if c == '\\' {
        return true;
      } else {
        escaped := false;
      }
    }
    return false;
  }

  /** `normalize_selector` */
  function NormalizeSelector(s: string): Option<string> {
    match Normalize(s)
    case None => None
    case Some(n) => if n == "" || Width(n) > MAX_SELECTOR_BYTES || UnquotedBackslash(n) then None else Some(n)
  }

  /**
   * The selector of a rule is its normalised prelude normalised again; the
   * second time changes nothing, so it can only refuse.
   */
  lemma PreludeNormalizesOnce(s: string)
    ensures NormalizePrelude(s).Ok? ==>
              var p := NormalizePrelude(s).value;
              && NormalizePrelude(p) == Ok(p)
              && NormalizeSelector(p) == NormalizeSelector(s)
              && (NormalizeSelector(p) == Some(p) <==>
                    p != "" && Width(p) <= MAX_SELECTOR_BYTES && !UnquotedBackslash(p))
              && QuotedPart(p) == QuotedFrom(s, 0, OUTSIDE)
  {
    NormalizeIsIdempotent(s);
    NormalizeKeepsQuoted(s);
  }

  predicate PropertyChar(c: char) { IsAlnum(c) || c == '-' || c == '_' }

  /** `normalize_property` */
  function NormalizeProperty(s: string): Result<string, Refusal> {
    match Strip(s)
    case None => Err(Invalid)
    case Some(t) =>
      var p := Trim(t);
      if p == "" || Width(p) > MAX_PROPERTY_BYTES || exists i | 0 <= i < |p| :: !PropertyChar(p[i])
      then Err(Unsupported)
      else Ok(Lower(p))
  }

  function SkipAsciiSpace(s: string): string {
    if s != "" && IsAsciiSpace(s[0]) then SkipAsciiSpace(s[1..]) else s
  }

  /** After the exclamation mark: the word, in whatever case, and nothing but whitespace behind it. */
  predicate SaysImportant(rest: string) {
    var t := SkipAsciiSpace(rest);
    |t| >= 9 && Lower(t[..9]) == "important" && Blank(t[9..])
  }

  const IMPORTANT := "important"
  const CAPITALS := "IMPORTANT"

  /** The word stands at `n`, in whatever case, behind ASCII whitespace and with nothing but whitespace behind it. */
  predicate ImportantAt(rest: string, n: nat) {
    && n + 9 <= |rest| && (forall i | 0 <= i < n :: rest[i] in " \t\n\r\U{0C}")
    && (forall i | 0 <= i < 9 :: rest[n + i] == IMPORTANT[i] || rest[n + i] == CAPITALS[i])
    && Blank(rest[n + 9..])
  }

  ghost predicate ReadsImportant(rest: string) { exists n: nat :: ImportantAt(rest, n) }

  lemma {:induction false} SkippedSpace(s: string) returns (n: nat)
    ensures n <= |s| && SkipAsciiSpace(s) == s[n..] && (n < |s| ==> !IsAsciiSpace(s[n]))
    ensures forall i | 0 <= i < n :: IsAsciiSpace(s[i])
  {
    n := 0;
    if s != "" && IsAsciiSpace(s[0]) {
      n := SkippedSpace(s[1..]);
      n := n + 1;
      assert forall i | 0 < i < n :: s[i] == s[1..][i - 1];
    }
  }

  lemma LetterOfImportant(c: char, i: nat)
    requires i < 9
    ensures LowerChar(c) == IMPORTANT[i] <==> c == IMPORTANT[i] || c == CAPITALS[i]
    ensures c == IMPORTANT[i] || c == CAPITALS[i] ==> !IsAsciiSpace(c)
  {
  }

  lemma SaysIsRead(rest: string)
    ensures SaysImportant(rest) <==> ReadsImportant(rest)
  {
    hide LowerChar, Blank;
    var m := SkippedSpace(rest);
    if SaysImportant(rest) {
      forall i | 0 <= i < 9 ensures rest[m + i] == IMPORTANT[i] || rest[m + i] == CAPITALS[i] {
        LetterOfImportant(rest[m + i], i);
        assert Lower(rest[m..][..9])[i] == LowerChar(rest[m + i]);
      }
      assert rest[m..][9..] == rest[m + 9..];
      assert ImportantAt(rest, m);
    }
    if n: nat :| ImportantAt(rest, n) {
      LetterOfImportant(rest[n], 0);
      assert n == m;
      forall i | 0 <= i < 9 ensures Lower(rest[m..][..9])[i] == IMPORTANT[i] { LetterOfImportant(rest[m + i], i); }
      assert rest[m..][9..] == rest[m + 9..];
    }
  }

  /** `top_level_important_index`, over characters: a backslash in a string hides the character after it. */
  function ImportantFrom(s: string, i: nat, quote: Option<char>, paren: nat,
                         bracket: nat): (r: Result<Option<nat>, Refusal>)
    ensures r.Ok? && r.value.Some? ==> i <= r.value.value < |s| && s[r.value.value] == '!'
    decreases if i < |s| then |s| - i else 0
  {
    if i >= |s| then if quote.Some? || paren != 0 || bracket != 0 then Err(Invalid) else Ok(None)
    else if quote.Some? then
      if s[i] == '\\' then ImportantFrom(s, i + 2, quote, paren, bracket)
      else ImportantFrom(s, i + 1, if s[i] == quote.value then None else quote, paren, bracket)
    else if CssText.IsQuote(s[i]) then ImportantFrom(s, i + 1, Some(s[i]), paren, bracket)
    else if s[i] == '(' then ImportantFrom(s, i + 1, None, paren + 1, bracket)
    else if s[i] == ')' then if paren == 0 then Err(Invalid) else ImportantFrom(s, i + 1, None, paren - 1, bracket)
    else if s[i] == '[' then ImportantFrom(s, i + 1, None, paren, bracket + 1)
    else if s[i] == ']' then if bracket == 0 then Err(Invalid) else ImportantFrom(s, i + 1, None, paren, bracket - 1)
    else if s[i] == '!' && paren == 0 && bracket == 0 && SaysImportant(s[i + 1..]) then Ok(Some(i))
    else ImportantFrom(s, i + 1, None, paren, bracket)
  }

  /** `top_level_important_index` */
  method TopLevelImportantIndex(s: string) returns (r: Result<Option<nat>, Refusal>)
    ensures r == ImportantFrom(s, 0, None, 0, 0)
  {
    var cursor, paren, bracket := 0, 0, 0;
    var quote: Option<char> := None;
    while cursor < |s|
      invariant ImportantFrom(s, 0, None, 0, 0) == ImportantFrom(s, cursor, quote, paren, bracket)
      decreases if cursor < |s| then |s| - cursor else 0
    {
      var c := s[cursor];
      if quote.Some? {
        if c == '\\' {
          cursor := cursor + 2;
          continue;
        }
        if c == quote.value { quote := None; }
        cursor := cursor + 1;
        continue;
      }
      if CssText.IsQuote(c) {
        quote := Some(c);
      } else if c == '(' {
        paren := paren + 1;
      } else if c == ')' {
        if paren == 0 { return Err(Invalid); }
        paren := paren - 1;
      } else if c == '[' {
        bracket := bracket + 1;
      } else if c == ']' {
        if bracket == 0 { return Err(Invalid); }
        bracket := bracket - 1;
      } else if c == '!' && paren == 0 && bracket == 0 && SaysImportant(s[cursor + 1..]) {
        return Ok(Some(cursor));
      }
      cursor := cursor + 1;
    }
    return if quote.Some? || paren != 0 || bracket != 0 then Err(Invalid) else Ok(None);
  }

  /** How many more opening than closing characters stand outside strings before the `i`-th. */
  function Nesting(s: string, i: nat, opening: char, closing: char): int
    requires i <= |s|
  {
    if i == 0 then 0
    else
      Nesting(s, i - 1, opening, closing)
      + (if !Outside(s, i - 1) then 0 else if s[i - 1] == opening then 1 else if s[i - 1] == closing then -1 else 0)
  }

  /** An exclamation mark outside strings, parentheses and brackets that says the value is important. */
  ghost predicate PriorityAt(s: string, i: nat) {
    && i < |s| && Outside(s, i) && s[i] == '!' && ReadsImportant(s[i + 1..])
    && Nesting(s, i, '(', ')') == 0 && Nesting(s, i, '[', ']') == 0
  }

  ghost predicate NoPriority(s: string, i: nat) { forall j | 0 <= j < i :: !PriorityAt(s, j) }

  /** Up to the `i`-th character nothing is closed that was not opened. */
  predicate Balanced(s: string, i: nat)
    requires i <= |s|
  {
    forall j | 0 <= j <= i :: Nesting(s, j, '(', ')') >= 0 && Nesting(s, j, '[', ']') >= 0
  }

  /** The text ends outside strings, with everything closed. */
  predicate Closed(s: string) {
    StateAfter(s).quote.None? && Nesting(s, |s|, '(', ')') == 0 && Nesting(s, |s|, '[', ']') == 0
  }

  ghost predicate FirstPriority(s: string, k: nat) { PriorityAt(s, k) && NoPriority(s, k) && Balanced(s, k) }

  ghost predicate PlainValue(s: string) { NoPriority(s, |s|) && Balanced(s, |s|) && Closed(s) }

  /** Neither: something is closed that was not opened before any mark, or there is no mark and something stays open. */
  ghost predicate Malformed(s: string) {
    || (exists j | 0 <= j <= |s| :: NoPriority(s, j) && !Balanced(s, j))
    || (NoPriority(s, |s|) && !Closed(s))
  }

  /** What the search comes to, told of the text alone. */
  ghost predicate Told(s: string, r: Result<Option<nat>, Refusal>) {
    match r
    case Ok(Some(k)) => FirstPriority(s, k)
    case Ok(None) => PlainValue(s)
    case Err(refusal) => refusal == Invalid && Malformed(s)
  }

  /** Where the loop is: outside escapes, with its counters right and nothing found yet. */
  ghost predicate Seeking(s: string, i: nat, quote: Option<char>, paren: nat, bracket: nat) {
    && i <= |s| && StateAfter(s[..i]) == State(quote, false) && NoPriority(s, i) && Balanced(s, i)
    && paren == Nesting(s, i, '(', ')') && bracket == Nesting(s, i, '[', ']')
  }

  lemma StateNext(s: string, i: nat)
    requires i < |s|
    ensures StateAfter(s[..i + 1]) == CssText.Step(StateAfter(s[..i]), s[i])
  {
    assert s[..i + 1] == s[..i] + [s[i]];
    StateAppend(s[..i], s[i]);
  }

  lemma {:induction false} EscapeGoesOn(s: string, i: nat, quote: Option<char>, paren: nat, bracket: nat)
    requires Seeking(s, i, quote, paren, bracket) && quote.Some? && i + 2 <= |s| && s[i] == '\\'
    ensures Seeking(s, i + 2, quote, paren, bracket)
  {
    StateNext(s, i);
    StateNext(s, i + 1);
    assert !Outside(s, i) && !Outside(s, i + 1);
    assert Nesting(s, i + 1, '(', ')') == paren && Nesting(s, i + 1, '[', ']') == bracket;
  }

  lemma {:induction false} StringGoesOn(s: string, i: nat, quote: Option<char>, paren: nat, bracket: nat)
    requires Seeking(s, i, quote, paren, bracket) && quote.Some? && i < |s| && s[i] != '\\'
    ensures Seeking(s, i + 1, if s[i] == quote.value then None else quote, paren, bracket)
  {
    StateNext(s, i);
    assert !Outside(s, i);
  }

  lemma {:induction false} QuoteGoesOn(s: string, i: nat, paren: nat, bracket: nat)
    requires Seeking(s, i, None, paren, bracket) && i < |s| && CssText.IsQuote(s[i])
    ensures Seeking(s, i + 1, Some(s[i]), paren, bracket)
  {
    StateNext(s, i);
    assert !Outside(s, i);
  }

  /** Outside strings a character is a mark by what it is, what follows and the counters alone. */
  lemma {:induction false} OutsideMarks(s: string, i: nat, paren: nat, bracket: nat)
    requires Seeking(s, i, None, paren, bracket) && i < |s| && !CssText.IsQuote(s[i])
    ensures Outside(s, i)
    ensures PriorityAt(s, i) <==> s[i] == '!' && paren == 0 && bracket == 0 && SaysImportant(s[i + 1..])
    ensures Nesting(s, i + 1, '(', ')') == paren + (if s[i] == '(' then 1 else if s[i] == ')' then -1 else 0)
    ensures Nesting(s, i + 1, '[', ']') == bracket + (if s[i] == '[' then 1 else if s[i] == ']' then -1 else 0)
  {
    hide SaysImportant, ReadsImportant;
    SaysIsRead(s[i + 1..]);
  }

  lemma {:induction false} OutsideGoesOn(s: string, i: nat, paren: nat, bracket: nat)
    requires Seeking(s, i, None, paren, bracket) && i < |s| && !CssText.IsQuote(s[i]) && !PriorityAt(s, i)
    ensures s[i] == '(' ==> Seeking(s, i + 1, None, paren + 1, bracket)
    ensures s[i] == '[' ==> Seeking(s, i + 1, None, paren, bracket + 1)
    ensures s[i] == ')' && paren > 0 ==> Seeking(s, i + 1, None, paren - 1, bracket)
    ensures s[i] == ']' && bracket > 0 ==> Seeking(s, i + 1, None, paren, bracket - 1)
    ensures s[i] !in "()[]" ==> Seeking(s, i + 1, None, paren, bracket)
  {
    StateNext(s, i);
    OutsideMarks(s, i, paren, bracket);
    assert NoPriority(s, i + 1);
  }

  lemma {:induction false} ClosesUnopened(s: string, i: nat, paren: nat, bracket: nat)
    requires Seeking(s, i, None, paren, bracket) && i < |s| && !CssText.IsQuote(s[i])
    requires (s[i] == ')' && paren == 0) || (s[i] == ']' && bracket == 0)
    ensures Malformed(s)
  {
    OutsideMarks(s, i, paren, bracket);
    assert NoPriority(s, i + 1) && !Balanced(s, i + 1);
  }

  lemma {:induction false} SeekingEnds(s: string, quote: Option<char>, paren: nat, bracket: nat)
    requires Seeking(s, |s|, quote, paren, bracket)
    ensures Told(s, if quote.Some? || paren != 0 || bracket != 0 then Err(Invalid) else Ok(None))
  {
    assert s[..|s|] == s;
  }

  /** A backslash that ends the text leaves its string open. */
  lemma {:induction false} EscapeEnds(s: string, quote: Option<char>, paren: nat, bracket: nat)
    requires s != "" && Seeking(s, |s| - 1, quote, paren, bracket) && quote.Some? && s[|s| - 1] == '\\'
    ensures Malformed(s)
  {
    var n := |s| - 1;
    StateNext(s, n);
    assert s[..n + 1] == s && !Outside(s, n);
    assert NoPriority(s, |s|) && !Closed(s);
  }

  lemma {:induction false} StringTold(s: string, i: nat, quote: Option<char>, paren: nat, bracket: nat)
    requires Seeking(s, i, quote, paren, bracket) && quote.Some? && i < |s|
    ensures Told(s, ImportantFrom(s, i, quote, paren, bracket))
    decreases |s| - i, 0
  {
    hide Seeking, Malformed, FirstPriority, PlainValue;
    if s[i] != '\\' {
      var quote' := if s[i] == quote.value then None else quote;
      StringGoesOn(s, i, quote, paren, bracket);
      SearchTold(s, i + 1, quote', paren, bracket);
      assert ImportantFrom(s, i, quote, paren, bracket) == ImportantFrom(s, i + 1, quote', paren, bracket);
    } else if i + 2 <= |s| {
      EscapeGoesOn(s, i, quote, paren, bracket);
      SearchTold(s, i + 2, quote, paren, bracket);
      assert ImportantFrom(s, i, quote, paren, bracket) == ImportantFrom(s, i + 2, quote, paren, bracket);
    } else {
      EscapeEnds(s, quote, paren, bracket);
      assert ImportantFrom(s, i + 2, quote, paren, bracket) == Err(Invalid);
    }
  }

  lemma {:induction false} OutsideTold(s: string, i: nat, paren: nat, bracket: nat)
    requires Seeking(s, i, None, paren, bracket) && i < |s| && !CssText.IsQuote(s[i])
    ensures Told(s, ImportantFrom(s, i, None, paren, bracket))
    decreases |s| - i, 0
  {
    hide SaysImportant, ReadsImportant, Outside, Nesting, PlainValue;
    OutsideMarks(s, i, paren, bracket);
    if !PriorityAt(s, i) {
      OutsideGoesOn(s, i, paren, bracket);
      if s[i] == '(' {
        SearchTold(s, i + 1, None, paren + 1, bracket);
      } else if s[i] == '[' {
        SearchTold(s, i + 1, None, paren, bracket + 1);
      } else if (s[i] == ')' && paren == 0) || (s[i] == ']' && bracket == 0) {
        ClosesUnopened(s, i, paren, bracket);
      } else if s[i] == ')' {
        SearchTold(s, i + 1, None, paren - 1, bracket);
      } else if s[i] == ']' {
        SearchTold(s, i + 1, None, paren, bracket - 1);
      } else {
        SearchTold(s, i + 1, None, paren, bracket);
      }
    }
  }

  lemma {:induction false} SearchTold(s: string, i: nat, quote: Option<char>, paren: nat, bracket: nat)
    requires Seeking(s, i, quote, paren, bracket)
    ensures Told(s, ImportantFrom(s, i, quote, paren, bracket))
    decreases |s| - i, 1
  {
    if i == |s| {
      SeekingEnds(s, quote, paren, bracket);
    } else if quote.Some? {
      StringTold(s, i, quote, paren, bracket);
    } else if CssText.IsQuote(s[i]) {
      QuoteGoesOn(s, i, paren, bracket);
      SearchTold(s, i + 1, Some(s[i]), paren, bracket);
    } else {
      OutsideTold(s, i, paren, bracket);
    }
  }

  /** At most one of the three is so, and a first mark is first. */
  lemma {:induction false} OneOutcome(s: string, k: nat, l: nat)
    ensures FirstPriority(s, k) && FirstPriority(s, l) ==> k == l
    ensures FirstPriority(s, k) ==> !PlainValue(s) && !Malformed(s)
    ensures PlainValue(s) ==> !Malformed(s)
  {
  }

  /**
   * A value has priority exactly by its first such mark: nothing inside a
   * string, parentheses or brackets can make a declaration important. It is
   * refused exactly when something is closed that was not opened before any
   * mark, or when there is no mark and something stays open.
   */
  lemma PriorityIsTopLevel(s: string, k: nat)
    ensures var r := ImportantFrom(s, 0, None, 0, 0);
            && (r == Ok(Some(k)) <==> FirstPriority(s, k))
            && (r == Ok(None) <==> PlainValue(s))
            && (r == Err(Invalid) <==> Malformed(s)) && (r.Err? ==> r.error == Invalid)
  {
    assert s[..0] == "";
    SearchTold(s, 0, None, 0, 0);
    var r := ImportantFrom(s, 0, None, 0, 0);
    OneOutcome(s, k, if r.Ok? && r.value.Some? then r.value.value else k);
    OneOutcome(s, if r.Ok? && r.value.Some? then r.value.value else k, k);
  }

  /** `normalize_value_and_priority` */
  function NormalizeValue(s: string): Result<(string, bool), Refusal> {
    match Strip(s)
    case None => Err(Invalid)
    case Some(t) =>
      match ImportantFrom(t, 0, None, 0, 0)
      case Err(refusal) => Err(refusal)
      case Ok(at) =>
        match Collapse(if at.Some? then t[..at.value] else t)
        case None => Err(Invalid)
        case Some(n) => if Width(n) > MAX_SOURCE_VALUE_BYTES then Err(Limit) else Ok((n, at.Some?))
  }

  /**
   * What the text behind a colon says: with comments stripped, the value is
   * the collapsed text in front of the first priority mark, and important; or
   * all of it, without any mark, and not important.
   */
  ghost predicate ValueSays(s: string, value: string, important: bool) {
    && Strip(s).Some? && Width(value) <= MAX_SOURCE_VALUE_BYTES
    && (important <==> exists k: nat :: FirstPriority(Strip(s).value, k))
    && (forall k: nat | FirstPriority(Strip(s).value, k) :: Collapse(Strip(s).value[..k]) == Some(value))
    && (!important ==> PlainValue(Strip(s).value) && Collapse(Strip(s).value) == Some(value))
  }

  lemma ValueIsSaid(s: string, value: string, important: bool)
    ensures NormalizeValue(s) == Ok((value, important)) <==> ValueSays(s, value, important)
  {
    hide FirstPriority, PlainValue, Malformed, Collapse;
    if Strip(s).Some? {
      var t := Strip(s).value;
      forall k: nat
        ensures ImportantFrom(t, 0, None, 0, 0) == Ok(Some(k)) <==> FirstPriority(t, k)
        ensures ImportantFrom(t, 0, None, 0, 0) == Ok(None) <==> PlainValue(t)
      {
        PriorityIsTopLevel(t, k);
      }
      PriorityIsTopLevel(t, 0);
    }
  }

  /** Letters in lower case, everything else as it is. */
  predicate IsLowerOf(p: string, u: string) {
    && |p| == |u|
    && forall i | 0 <= i < |u| ::
         if 'A' <= u[i] <= 'Z' then p[i] as int - 'a' as int == u[i] as int - 'A' as int else p[i] == u[i]
  }

  /** The text is `u` with nothing but whitespace around it. */
  predicate Surrounds(t: string, lead: nat, u: string) {
    && lead + |u| <= |t| && t[lead..lead + |u|] == u && Blank(t[..lead]) && Blank(t[lead + |u|..])
  }

  /** The ASCII codes of hyphen, underscore, digits and letters. */
  predicate NameCode(c: int) { c == 45 || c == 95 || 48 <= c < 58 || 65 <= c < 91 || 97 <= c < 123 }

  /** What the text in front of a colon says: with comments stripped, one name with whitespace around it. */
  ghost predicate PropertySays(s: string, p: string) {
    Strip(s).Some? && exists lead, u ::
      && Surrounds(Strip(s).value, lead, u) && u != "" && (forall i | 0 <= i < |u| :: NameCode(u[i] as int))
      && Width(u) <= MAX_PROPERTY_BYTES && IsLowerOf(p, u)
  }

  lemma {:induction false} TrimStartSurrounds(t: string) returns (lead: nat)
    ensures lead <= |t| && TrimStart(t) == t[lead..] && Blank(t[..lead])
  {
    lead := 0;
    if t != "" && IsWhitespace(t[0]) {
      lead := TrimStartSurrounds(t[1..]);
      lead := lead + 1;
      assert forall i | 0 < i < lead :: t[i] == t[1..][i - 1];
    }
  }

  lemma {:induction false} TrimEndSurrounds(t: string) returns (n: nat)
    ensures n <= |t| && TrimEnd(t) == t[..n] && Blank(t[n..])
  {
    n := |t|;
    if t != "" && IsWhitespace(t[n - 1]) {
      n := TrimEndSurrounds(t[..n - 1]);
      assert forall i | n <= i < |t| - 1 :: t[i] == t[..|t| - 1][n..][i - n];
      assert forall i | 0 <= i < |t[n..]| :: t[n..][i] == t[n + i];
    }
  }

  lemma TrimSurrounds(t: string) returns (lead: nat)
    ensures Surrounds(t, lead, Trim(t))
  {
    lead := TrimStartSurrounds(t);
    var n := TrimEndSurrounds(t[lead..]);
    assert t[lead..][..n] == t[lead..lead + n] && t[lead..][n..] == t[lead + n..];
  }

  lemma {:induction false} SurroundedTrims(t: string, lead: nat, u: string)
    requires Surrounds(t, lead, u) && u != "" && Trimmed(u)
    ensures Trim(t) == u
  {
    if lead > 0 {
      assert IsWhitespace(t[..lead][0]);
      assert t[1..][lead - 1..lead - 1 + |u|] == u && t[1..][..lead - 1] == t[..lead][1..];
      assert t[1..][lead - 1 + |u|..] == t[lead + |u|..];
      SurroundedTrims(t[1..], lead - 1, u);
    } else {
      assert t[0] == u[0] && TrimStart(t) == t;
      EndTrims(t, u);
    }
  }

  lemma {:induction false} EndTrims(t: string, u: string)
    requires Surrounds(t, 0, u) && u != "" && Trimmed(u)
    ensures TrimEnd(t) == u
  {
    if |t| > |u| {
      var n := |t| - 1;
      assert t[|u|..][n - |u|] == t[n];
      assert t[..n][|u|..] == t[|u|..][..n - |u|];
      EndTrims(t[..n], u);
    } else {
      assert t == u;
    }
  }

  lemma NameIsProperty(c: char)
    ensures PropertyChar(c) <==> NameCode(c as int)
    ensures PropertyChar(c) ==> !IsWhitespace(c)
  {
  }

  lemma PropertyIsSaid(s: string, p: string)
    ensures NormalizeProperty(s) == Ok(p) <==> PropertySays(s, p)
  {
    hide Trim, Surrounds, PropertyChar, NameCode;
    forall c: char
      ensures PropertyChar(c) <==> NameCode(c as int)
      ensures PropertyChar(c) ==> !IsWhitespace(c)
    {
      NameIsProperty(c);
    }
    if Strip(s).Some? {
      var t := Strip(s).value;
      var lead := TrimSurrounds(t);
      if NormalizeProperty(s) == Ok(p) { assert IsLowerOf(p, Trim(t)); }
      if lead', u :| Surrounds(t, lead', u) && u != "" && (forall i | 0 <= i < |u| :: NameCode(u[i] as int))
                     && Width(u) <= MAX_PROPERTY_BYTES && IsLowerOf(p, u) {
        assert PropertyChar(u[0]) && PropertyChar(u[|u| - 1]);
        SurroundedTrims(t, lead', u);
        assert Lower(u) == p;
      }
    }
  }

  function NameEnd(s: string, i: nat): (e: nat)
    requires i <= |s|
    ensures i <= e <= |s|
    decreases |s| - i
  {
    if i < |s| && (IsAlnum(s[i]) || s[i] == '-') then NameEnd(s, i + 1) else i
  }

  predicate IsAtRule(prelude: string) { prelude != "" && prelude[0] == '@' }

  /** `at_rule_name` */
  function AtRuleName(prelude: string): Option<string> {
    if !IsAtRule(prelude) then None
    else
      var e := NameEnd(prelude, 1);
      if e == 1 then None else Some(prelude[1..e])
  }
}
