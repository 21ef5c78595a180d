/** Where a byte offset is in the text: UTF-8 boundaries, lines and columns. */
module CssPositions {
  import opened Common
  import opened Utf8

  // ------------------------------------------------------------------------ offsets

  /** The offset is where the `i`-th character starts, or the end. */
  predicate StartsAt(s: string, i: nat, offset: nat) { i <= |s| && |Encode(s[..i])| == offset }

  ghost predicate Boundary(s: string, offset: nat) { exists i :: StartsAt(s, i, offset) }

  lemma {:induction false} EncodeConcat(a: string, b: string)
    ensures Encode(a + b) == Encode(a) + Encode(b)
  {
    if a == "" {
      assert a + b == b;
    } else {
      assert (a + b)[0] == a[0] && (a + b)[1..] == a[1..] + b;
      EncodeConcat(a[1..], b);
    }
  }

  lemma EncodeSplit(s: string, i: nat)
    requires i <= |s|
    ensures Encode(s) == Encode(s[..i]) + Encode(s[i..])
  {
    assert s == s[..i] + s[i..];
    EncodeConcat(s[..i], s[i..]);
  }

  lemma EncodePrefix(s: string, i: nat)
    requires i < |s|
    ensures Encode(s[..i + 1]) == Encode(s[..i]) + EncodeChar(s[i])
  {
    assert s[..i + 1] == s[..i] + [s[i]];
    EncodeConcat(s[..i], [s[i]]);
    assert [s[i]][1..] == "";
    assert Encode([s[i]]) == EncodeChar(s[i]) + [];
  }

  /** Later characters start further on. */
  lemma {:induction false} OffsetsIncrease(s: string, i: nat, j: nat)
    requires i <= j <= |s|
    ensures |Encode(s[..i])| + (j - i) <= |Encode(s[..j])|
    decreases j - i
  {
    if i < j {
      EncodePrefix(s, j - 1);
      OffsetsIncrease(s, i, j - 1);
    }
  }

  /** The character index of a boundary. */
  ghost function IndexAt(s: string, offset: nat): (i: nat)
    requires Boundary(s, offset)
    ensures StartsAt(s, i, offset)
  {
    var i :| StartsAt(s, i, offset);
    i
  }

  /** The `i`-th character is this ASCII byte, alone between two boundaries. */
  predicate WholeAt(s: string, i: nat, offset: nat, c: Byte) {
    i < |s| && StartsAt(s, i, offset) && StartsAt(s, i + 1, offset + 1) && s[i] as int == c
  }

  lemma WholeShift(s: string, i: nat, offset: nat, c: Byte)
    requires s != "" && WholeAt(s[1..], i, offset, c)
    ensures WholeAt(s, i + 1, |EncodeChar(s[0])| + offset, c)
  {
    PrefixShift(s, i);
    PrefixShift(s, i + 1);
  }

  lemma WholeFirst(s: string, offset: nat)
    requires s != "" && offset < |EncodeChar(s[0])| && EncodeChar(s[0])[offset] < 0x80
    ensures WholeAt(s, 0, offset, EncodeChar(s[0])[offset])
  {
    assert s[..0] == "";
    EncodePrefix(s, 0);
  }

  /** An ASCII byte is a whole character: both its ends are boundaries. */
  lemma {:induction false} AsciiIsWhole(s: string, offset: nat) returns (i: nat)
    requires offset < |Encode(s)| && Encode(s)[offset] < 0x80
    ensures WholeAt(s, i, offset, Encode(s)[offset])
  {
    var w := |EncodeChar(s[0])|;
    if offset < w {
      i := 0;
      WholeFirst(s, offset);
    } else {
      var k := AsciiIsWhole(s[1..], offset - w);
      i := k + 1;
      WholeShift(s, k, offset - w, Encode(s)[offset]);
    }
  }

  lemma PrefixShift(s: string, i: nat)
    requires s != "" && i <= |s[1..]|
    ensures |Encode(s[..i + 1])| == |EncodeChar(s[0])| + |Encode(s[1..][..i])|
  {
    assert s[..i + 1][0] == s[0] && s[..i + 1][1..] == s[1..][..i];
  }

  // -------------------------------------------------------------- lines and columns

  datatype Position = Position(line: nat, column: nat, column16: nat)

  function Utf16Width(c: char): nat { if c as int < 0x10000 then 1 else 2 }

  /** One character on: a line feed straight after a carriage return is part of it. */
  function After(p: Position, previous: Option<char>, c: char): Position {
    if c == '\r' then Position(p.line + 1, 0, 0)
    else if c == '\n' then if previous == Some('\r') then p else Position(p.line + 1, 0, 0)
    else Position(p.line, p.column + 1, p.column16 + Utf16Width(c))
  }

  function Previous(s: string, i: nat): Option<char>
    requires i <= |s|
  {
    if i == 0 then None else Some(s[i - 1])
  }

  /** The position of the `i`-th character. */
  function PositionAt(s: string, i: nat): Position
    requires i <= |s|
  {
    if i == 0 then Position(1, 0, 0) else After(PositionAt(s, i - 1), Previous(s, i - 1), s[i - 1])
  }

  /** `line_columns`: the loop looks ahead for the line feed of a carriage return. */
  method LineColumns(s: string, i: nat) returns (p: Position)
    requires i <= |s|
    ensures p == PositionAt(s, i)
  {
    var line, column, column16: nat := 1, 0, 0;
    var k := 0;
    while k < i
      invariant k <= i && Position(line, column, column16) == PositionAt(s, k)
      invariant k < i && s[k] == '\n' ==> Previous(s, k) != Some('\r')
    {
      var c := s[k];
      k := k + 1;
      if c == '\r' {
        if k < i && s[k] == '\n' { k := k + 1; }
        line, column, column16 := line + 1, 0, 0;
      } else if c == '\n' {
        line, column, column16 := line + 1, 0, 0;
      } else {
        column, column16 := column + 1, column16 + Utf16Width(c);
      }
    }
    p := Position(line, column, column16);
  }

  predicate EndsPair(s: string, i: nat)
    requires i < |s|
  {
    s[i] == '\n' && Previous(s, i) == Some('\r')
  }

  /** A line ends here: at a carriage return, or at a line feed that is not behind one. */
  predicate BreaksAt(s: string, k: nat)
    requires k < |s|
  {
    s[k] == '\r' || (s[k] == '\n' && (k == 0 || s[k - 1] != '\r'))
  }

  function Breaks(s: string, i: nat): set<nat>
    requires i <= |s|
  {
    set k | 0 <= k < i && BreaksAt(s, k)
  }

  /** The characters of a stretch that take two UTF-16 units. */
  function Wide(s: string, j: nat, i: nat): set<nat>
    requires j <= i <= |s|
  {
    set k | j <= k < i && s[k] as int >= 0x10000
  }

  /** The line of the `i`-th character starts at the `j`-th. */
  predicate LineStartsAt(s: string, j: nat, i: nat) {
    && j <= i <= |s| && (j == 0 || s[j - 1] == '\r' || s[j - 1] == '\n')
    && forall k | j <= k < i :: s[k] != '\r' && s[k] != '\n'
  }

  lemma BreaksNext(s: string, i: nat)
    requires i < |s|
    ensures |Breaks(s, i + 1)| == |Breaks(s, i)| + (if BreaksAt(s, i) then 1 else 0)
  {
    if BreaksAt(s, i) {
      assert Breaks(s, i + 1) == Breaks(s, i) + {i};
    } else {
      assert Breaks(s, i + 1) == Breaks(s, i);
    }
  }

  lemma WideNext(s: string, j: nat, i: nat)
    requires j <= i < |s|
    ensures |Wide(s, j, i + 1)| == |Wide(s, j, i)| + Utf16Width(s[i]) - 1
  {
    if s[i] as int >= 0x10000 {
      assert Wide(s, j, i + 1) == Wide(s, j, i) + {i};
    } else {
      assert Wide(s, j, i + 1) == Wide(s, j, i);
    }
  }

  /**
   * The line is one more than the line breaks before; the columns count the
   * characters, and the UTF-16 units, from where the line starts.
   */
  lemma {:induction false} PositionIsCounted(s: string, i: nat) returns (j: nat)
    requires i <= |s|
    ensures LineStartsAt(s, j, i)
    ensures PositionAt(s, i) == Position(1 + |Breaks(s, i)|, i - j, i - j + |Wide(s, j, i)|)
  {
    if i == 0 {
      j := 0;
      assert Breaks(s, 0) == {} && Wide(s, 0, 0) == {};
    } else {
      hide Breaks, Wide, Utf16Width;
      j := PositionIsCounted(s, i - 1);
      BreaksNext(s, i - 1);
      WideNext(s, j, i - 1);
      if s[i - 1] == '\r' || s[i - 1] == '\n' {
        if EndsPair(s, i - 1) { assert j == i - 1; }
        j := i;
        NoneWide(s, i);
      }
    }
  }

  lemma NoneWide(s: string, i: nat)
    requires i <= |s|
    ensures |Wide(s, i, i)| == 0
  {
    assert Wide(s, i, i) == {};
  }

  predicate AtMost(p: Position, q: Position) {
    p.line < q.line || (p.line == q.line && p.column <= q.column && p.column16 <= q.column16)
  }

  /** Before in both coordinate systems. */
  predicate Before(p: Position, q: Position) {
    p.line < q.line || (p.line == q.line && p.column < q.column && p.column16 < q.column16)
  }

  lemma {:induction false} PositionsNeverFall(s: string, i: nat, j: nat)
    requires i <= j <= |s|
    ensures AtMost(PositionAt(s, i), PositionAt(s, j))
    decreases j - i
  {
    if i < j { PositionsNeverFall(s, i, j - 1); }
  }

  /** A later character is at a later position, except just after the pair of a carriage return and its line feed. */
  lemma PositionsIncrease(s: string, i: nat, j: nat)
    requires i < j <= |s|
    ensures Before(PositionAt(s, i), PositionAt(s, j)) <==> !(j == i + 1 && EndsPair(s, i))
  {
    if !EndsPair(s, i) {
      assert Before(PositionAt(s, i), PositionAt(s, i + 1));
      PositionsNeverFall(s, i + 1, j);
    } else if j > i + 1 {
      assert Before(PositionAt(s, i + 1), PositionAt(s, i + 2));
      PositionsNeverFall(s, i + 2, j);
    }
  }
}
