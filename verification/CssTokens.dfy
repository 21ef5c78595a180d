/**
 * What is code, told without reading the text from its start: the text falls
 * into comments, strings and single bytes, and the single bytes are the code.
 */
module CssTokens {
  import opened Common
  import opened CssLexer

  datatype Kind = Plain | Text | Comment

  predicate QuoteMark(c: Byte) { c == 0x22 || c == 0x27 }

  /** Behind a backslash of the same string that is not itself behind one. */
  predicate Escaped(b: seq<Byte>, from: nat, j: nat)
    requires j <= |b|
  {
    from < j && b[j - 1] == 0x5C && !Escaped(b, from, j - 1)
  }

  predicate StartsComment(b: seq<Byte>, i: nat, end: nat)
    requires end <= |b|
  {
    i + 1 < end && b[i] == 0x2F && b[i + 1] == 0x2A
  }

  predicate EndsComment(b: seq<Byte>, i: nat, k: nat, end: nat)
    requires end <= |b|
  {
    i + 2 <= k && k + 1 < end && b[k] == 0x2A && b[k + 1] == 0x2F
  }

  predicate EndsText(b: seq<Byte>, i: nat, k: nat)
    requires k < |b|
  {
    i < k && b[k] == b[i] && !Escaped(b, i + 1, k)
  }

  /** A comment, a string with its quotes, or a byte that starts neither. */
  predicate IsToken(b: seq<Byte>, end: nat, i: nat, j: nat, kind: Kind)
    requires end <= |b|
  {
    && i < j <= end
    && match kind
       case Plain => j == i + 1 && !QuoteMark(b[i]) && !StartsComment(b, i, end)
       case Text => QuoteMark(b[i]) && EndsText(b, i, j - 1) && forall k | i < k < j - 1 :: !EndsText(b, i, k)
       case Comment =>
         && StartsComment(b, i, end) && i + 4 <= j && EndsComment(b, i, j - 2, end)
         && forall k | i < k < j - 2 :: !EndsComment(b, i, k, end)
  }

  /** What is left behind the last token: nothing, or a string or comment that does not end. */
  predicate IsRest(b: seq<Byte>, end: nat, i: nat, ending: Ending)
    requires end <= |b|
  {
    && i <= end
    && match ending
       case Clean => i == end
       case OpenQuote => i < end && QuoteMark(b[i]) && forall k | i < k < end :: !EndsText(b, i, k)
       case OpenComment => StartsComment(b, i, end) && forall k | i < k < end :: !EndsComment(b, i, k, end)
  }

  /** The text from `i` on falls into tokens of these kinds, cut at these places. */
  predicate Falls(b: seq<Byte>, i: nat, end: nat, cuts: seq<nat>, kinds: seq<Kind>)
    requires end <= |b|
  {
    && |cuts| == |kinds| + 1 && cuts[0] == i
    && forall t | 0 <= t < |kinds| :: IsToken(b, end, cuts[t], cuts[t + 1], kinds[t])
  }

  /** Where the single bytes are. */
  function PlainCuts(cuts: seq<nat>, kinds: seq<Kind>): seq<nat>
    requires |cuts| == |kinds| + 1
  {
    if kinds == [] then []
    else (if kinds[0] == Plain then [cuts[0]] else []) + PlainCuts(cuts[1..], kinds[1..])
  }

  /** A comment ends behind the first closing mark. */
  lemma {:induction false} CommentEndsFirst(b: seq<Byte>, i: nat, from: nat, end: nat)
    requires end <= |b| && i + 2 <= from && forall k | i < k < from :: !EndsComment(b, i, k, end)
    ensures match CommentEnd(b, from, end)
            case Some(e) => i + 4 <= e <= end && EndsComment(b, i, e - 2, end)
                            && forall k | i < k < e - 2 :: !EndsComment(b, i, k, end)
            case None => forall k | i < k < end :: !EndsComment(b, i, k, end)
    decreases if from < end then end - from else 0
  {
    if from + 1 < end && !(b[from] == STAR && b[from + 1] == SLASH) { CommentEndsFirst(b, i, from + 1, end); }
  }

  /** Between two characters of the string that starts at `i`, none of which has ended it. */
  predicate Within(b: seq<Byte>, i: nat, j: nat, end: nat)
    requires end <= |b|
  {
    i < j <= end && QuoteMark(b[i]) && !Escaped(b, i + 1, j) && forall k | i < k < j :: !EndsText(b, i, k)
  }

  lemma {:induction false} TextEndsFirst(b: seq<Byte>, i: nat, j: nat, end: nat) returns (e: Option<nat>)
    requires end <= |b| && Within(b, i, j, end)
    ensures e.Some? ==> IsToken(b, end, i, e.value, Text) && Code(b, j, end, Some(b[i])) == Code(b, e.value, end, None)
    ensures e.None? ==> IsRest(b, end, i, OpenQuote) && Code(b, j, end, Some(b[i])) == Lexed([], OpenQuote)
    decreases end - j
  {
    if j == end {
      e := None;
    } else if b[j] == BACKSLASH {
      assert Escaped(b, i + 1, j + 1);
      if j + 2 <= end { e := TextEndsFirst(b, i, j + 2, end); } else { e := None; }
    } else if b[j] == b[i] {
      e := Some(j + 1);
    } else {
      e := TextEndsFirst(b, i, j + 1, end);
    }
  }

  lemma OneTokenMore(b: seq<Byte>, i: nat, j: nat, end: nat, kind: Kind, cuts: seq<nat>, kinds: seq<Kind>)
    requires end <= |b| && IsToken(b, end, i, j, kind) && Falls(b, j, end, cuts, kinds)
    ensures Falls(b, i, end, [i] + cuts, [kind] + kinds)
    ensures PlainCuts([i] + cuts, [kind] + kinds) == (if kind == Plain then [i] else []) + PlainCuts(cuts, kinds)
    ensures ([i] + cuts)[|kinds| + 1] == cuts[|kinds|]
  {
    hide IsToken;
    assert ([i] + cuts)[1..] == cuts && ([kind] + kinds)[1..] == kinds;
  }

  /** The first token and whether there is one are fixed by the text. */
  lemma OneToken(b: seq<Byte>, end: nat, i: nat, j: nat, kind: Kind, j': nat, kind': Kind, ending: Ending)
    requires end <= |b| && IsToken(b, end, i, j, kind)
    ensures IsToken(b, end, i, j', kind') ==> j == j' && kind == kind'
    ensures !IsRest(b, end, i, ending)
  {
    hide Escaped;
  }

  lemma {:induction false} OneFall(b: seq<Byte>, i: nat, end: nat, cuts: seq<nat>, kinds: seq<Kind>, ending: Ending,
                                   cuts': seq<nat>, kinds': seq<Kind>, ending': Ending)
    requires end <= |b| && Falls(b, i, end, cuts, kinds) && IsRest(b, end, cuts[|kinds|], ending)
    requires Falls(b, i, end, cuts', kinds') && IsRest(b, end, cuts'[|kinds'|], ending')
    ensures cuts == cuts' && kinds == kinds' && ending == ending'
    decreases |kinds|
  {
    hide IsToken, EndsText, EndsComment;
    if kinds == [] || kinds' == [] {
      if kinds != [] { OneToken(b, end, i, cuts[1], kinds[0], cuts[1], kinds[0], ending'); }
      if kinds' != [] { OneToken(b, end, i, cuts'[1], kinds'[0], cuts'[1], kinds'[0], ending); }
    } else {
      OneToken(b, end, i, cuts[1], kinds[0], cuts'[1], kinds'[0], ending);
      OneFall(b, cuts[1], end, cuts[1..], kinds[1..], ending, cuts'[1..], kinds'[1..], ending');
      assert cuts == [i] + cuts[1..] && cuts' == [i] + cuts'[1..];
      assert kinds == [kinds[0]] + kinds[1..] && kinds' == [kinds'[0]] + kinds'[1..];
    }
  }

  /**
   * The text falls into comments, strings and single bytes but for a rest
   * that does not end; the code is the single bytes, in order.
   */
  lemma {:induction false} CodeIsPlain(b: seq<Byte>, i: nat, end: nat) returns (cuts: seq<nat>, kinds: seq<Kind>)
    requires i <= end <= |b|
    ensures Falls(b, i, end, cuts, kinds) && IsRest(b, end, cuts[|kinds|], Code(b, i, end, None).ending)
    ensures Code(b, i, end, None).code == PlainCuts(cuts, kinds)
    decreases end - i
  {
    hide EndsText;
    var next, kind := Some(i + 1), Plain;
    if i < end && OpensComment(b, i, end) {
      CommentEndsFirst(b, i, i + 2, end);
      next, kind := CommentEnd(b, i + 2, end), Comment;
    } else if i < end && IsQuote(b[i]) {
      kind := Text;
      next := TextEndsFirst(b, i, i + 1, end);
    }
    if i == end || next.None? {
      cuts, kinds := [i], [];
    } else {
      cuts, kinds := CodeIsPlain(b, next.value, end);
      OneTokenMore(b, i, next.value, end, kind, cuts, kinds);
      cuts, kinds := [i] + cuts, [kind] + kinds;
    }
  }

  /** And it falls in one way only, so the code is that of any way it falls. */
  lemma FallsIsCode(b: seq<Byte>, i: nat, end: nat, cuts: seq<nat>, kinds: seq<Kind>, ending: Ending)
    requires end <= |b| && i <= end && Falls(b, i, end, cuts, kinds) && IsRest(b, end, cuts[|kinds|], ending)
    ensures Code(b, i, end, None) == Lexed(PlainCuts(cuts, kinds), ending)
  {
    hide Falls, IsRest, PlainCuts;
    var cuts', kinds' := CodeIsPlain(b, i, end);
    OneFall(b, i, end, cuts, kinds, ending, cuts', kinds', Code(b, i, end, None).ending);
  }
}
