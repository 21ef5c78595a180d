/** UTF-8, as far as lengths and offsets in bytes depend on it. */
module Utf8 {

  type Byte = nat

  function EncodeChar(c: char): (r: seq<Byte>)
    ensures 1 <= |r| <= 4
    ensures c as int < 0x80 ==> r == [c as int]
    ensures c as int >= 0x80 ==> forall i | 0 <= i < |r| :: r[i] >= 0x80
  {
    var n := c as int;
    if n < 0x80 then [n]
    else if n < 0x800 then [0xC0 + n / 0x40, 0x80 + n % 0x40]
    else if n < 0x10000 then [0xE0 + n / 0x1000, 0x80 + n / 0x40 % 0x40, 0x80 + n % 0x40]
    else [0xF0 + n / 0x40000, 0x80 + n / 0x1000 % 0x40, 0x80 + n / 0x40 % 0x40, 0x80 + n % 0x40]
  }

  function Encode(s: string): seq<Byte> {
    if s == "" then [] else EncodeChar(s[0]) + Encode(s[1..])
  }

  /** A byte of these leading bits, with the bits it carries. */
  predicate Leads(b: Byte, marker: nat, bits: nat) { b == marker + bits }

  predicate Continues(b: Byte, bits: nat) { bits < 0x40 && Leads(b, 0x80, bits) }

  /** The bytes carry the bits of the character, six in each but the first, and no fewer bytes would do. */
  ghost predicate Carries(b: seq<Byte>, n: nat) {
    || (|b| == 1 && n < 0x80 && Leads(b[0], 0, n))
    || (|b| == 2 && 0x80 <= n
        && exists x: nat, y: nat | x < 0x20 :: Leads(b[0], 0xC0, x) && Continues(b[1], y) && n == x * 0x40 + y)
    || (|b| == 3 && 0x800 <= n
        && exists x: nat, y: nat, z: nat | x < 0x10 ::
             Leads(b[0], 0xE0, x) && Continues(b[1], y) && Continues(b[2], z) && n == (x * 0x40 + y) * 0x40 + z)
    || (|b| == 4 && 0x10000 <= n
        && exists x: nat, y: nat, z: nat, w: nat | x < 8 ::
             && Leads(b[0], 0xF0, x) && Continues(b[1], y) && Continues(b[2], z) && Continues(b[3], w)
             && n == ((x * 0x40 + y) * 0x40 + z) * 0x40 + w)
  }

  lemma SixBits(q: nat, r: nat, n: nat)
    requires r < 0x40 && n == q * 0x40 + r
    ensures q == n / 0x40 && r == n % 0x40
  {
  }

  lemma EncodedCarries(c: char)
    ensures Carries(EncodeChar(c), c as int)
  {
    var n := c as int;
    var b := EncodeChar(c);
    var y, z := n / 0x40, n / 0x1000;
    assert y / 0x40 == z && z / 0x40 == n / 0x40000;
    if |b| == 2 {
      assert Leads(b[0], 0xC0, y) && Continues(b[1], n % 0x40);
    } else if |b| == 3 {
      assert Leads(b[0], 0xE0, z) && Continues(b[1], y % 0x40) && Continues(b[2], n % 0x40);
    } else if |b| == 4 {
      assert Leads(b[0], 0xF0, n / 0x40000) && Continues(b[1], z % 0x40);
      assert Continues(b[2], y % 0x40) && Continues(b[3], n % 0x40);
    }
  }

  lemma OneByte(c: char, b: seq<Byte>)
    requires |b| == 1 && c as int < 0x80 && Leads(b[0], 0, c as int)
    ensures b == EncodeChar(c)
  {
  }

  lemma TwoBytes(c: char, b: seq<Byte>, x: nat, y: nat)
    requires |b| == 2 && 0x80 <= c as int && x < 0x20 && Leads(b[0], 0xC0, x) && Continues(b[1], y)
    requires c as int == x * 0x40 + y
    ensures b == EncodeChar(c)
  {
    SixBits(x, y, c as int);
    assert b == [b[0], b[1]];
  }

  lemma ThreeBytes(c: char, b: seq<Byte>, x: nat, y: nat, z: nat)
    requires |b| == 3 && 0x800 <= c as int && x < 0x10
    requires Leads(b[0], 0xE0, x) && Continues(b[1], y) && Continues(b[2], z)
    requires c as int == (x * 0x40 + y) * 0x40 + z
    ensures b == EncodeChar(c)
  {
    var n := c as int;
    SixBits(x * 0x40 + y, z, n);
    SixBits(x, y, n / 0x40);
    assert n < 0x10000 && n / 0x40 / 0x40 == n / 0x1000;
    assert b == [b[0], b[1], b[2]];
  }

  lemma FourBytes(c: char, b: seq<Byte>, x: nat, y: nat, z: nat, w: nat)
    requires |b| == 4 && 0x10000 <= c as int
    requires Leads(b[0], 0xF0, x) && Continues(b[1], y) && Continues(b[2], z) && Continues(b[3], w)
    requires c as int == ((x * 0x40 + y) * 0x40 + z) * 0x40 + w
    ensures b == EncodeChar(c)
  {
    var n := c as int;
    SixBits((x * 0x40 + y) * 0x40 + z, w, n);
    SixBits(x * 0x40 + y, z, n / 0x40);
    assert n / 0x40 / 0x40 == n / 0x1000;
    SixBits(x, y, n / 0x1000);
    assert n / 0x1000 / 0x40 == n / 0x40000;
    assert b == [b[0], b[1], b[2], b[3]];
  }

  lemma CarriedIsEncoded(c: char, b: seq<Byte>)
    requires Carries(b, c as int)
    ensures b == EncodeChar(c)
  {
    hide Leads, Continues;
    var n := c as int;
    if |b| == 1 {
      assert Leads(b[0], 0, n);
      OneByte(c, b);
    } else if |b| == 2 {
      var x: nat, y: nat :| x < 0x20 && Leads(b[0], 0xC0, x) && Continues(b[1], y) && n == x * 0x40 + y;
      TwoBytes(c, b, x, y);
    } else if |b| == 3 {
      var x: nat, y: nat, z: nat :|
        x < 0x10 && Leads(b[0], 0xE0, x) && Continues(b[1], y) && Continues(b[2], z) && n == (x * 0x40 + y) * 0x40 + z;
      ThreeBytes(c, b, x, y, z);
    } else {
      var x: nat, y: nat, z: nat, w: nat :|
        && x < 8 && Leads(b[0], 0xF0, x) && Continues(b[1], y) && Continues(b[2], z) && Continues(b[3], w)
        && n == ((x * 0x40 + y) * 0x40 + z) * 0x40 + w;
      FourBytes(c, b, x, y, z, w);
    }
  }

  /** The bytes of a character are exactly those that carry it. */
  lemma EncodeIsExact(c: char, b: seq<Byte>)
    ensures EncodeChar(c) == b <==> Carries(b, c as int)
  {
    hide Carries, EncodeChar;
    EncodedCarries(c);
    if Carries(b, c as int) { CarriedIsEncoded(c, b); }
  }
}
