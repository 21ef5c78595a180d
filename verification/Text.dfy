/** Strings in the order of ordered sets and maps: by scalar value, shorter first. */
module Text {
  import opened Common

  predicate AtMost(a: string, b: string) {
    || a == ""
    || (b != "" && (a[0] < b[0] || (a[0] == b[0] && AtMost(a[1..], b[1..]))))
  }

  /** One is the beginning of the other, or where they first differ it has the smaller character. */
  lemma {:induction false} AtMostIsLexicographic(a: string, b: string)
    ensures AtMost(a, b) <==> a <= b || exists k :: DifferFirst(a, b, k) && a[k] < b[k]
  {
    if a == "" {
    } else if b == "" {
    } else if a[0] != b[0] {
      assert DifferFirst(a, b, 0);
    } else {
      AtMostIsLexicographic(a[1..], b[1..]);
      assert a == [a[0]] + a[1..] && b == [b[0]] + b[1..];
      forall k | 0 <= k < |a| - 1 && k < |b| - 1 ensures DifferFirst(a[1..], b[1..], k) <==> DifferFirst(a, b, k + 1) {
        assert a[..k + 1] == [a[0]] + a[1..][..k] && b[..k + 1] == [b[0]] + b[1..][..k];
        assert a[..k + 1][1..] == a[1..][..k] && b[..k + 1][1..] == b[1..][..k];
      }
      if k :| DifferFirst(a, b, k) && a[k] < b[k] { assert DifferFirst(a[1..], b[1..], k - 1); }
      if k :| DifferFirst(a[1..], b[1..], k) && a[1..][k] < b[1..][k] { assert DifferFirst(a, b, k + 1); }
    }
  }

  predicate DifferFirst(a: string, b: string, k: int) {
    0 <= k < |a| && k < |b| && a[..k] == b[..k] && a[k] != b[k]
  }

  lemma {:induction false} AtMostTotal(a: string, b: string)
    ensures AtMost(a, b) || AtMost(b, a)
  {
    if a != "" && b != "" && a[0] == b[0] { AtMostTotal(a[1..], b[1..]); }
  }

  lemma {:induction false} AtMostAntisymmetric(a: string, b: string)
    requires AtMost(a, b) && AtMost(b, a)
    ensures a == b
  {
    if a != "" && b != "" {
      AtMostAntisymmetric(a[1..], b[1..]);
      assert a == [a[0]] + a[1..] && b == [b[0]] + b[1..];
    }
  }

  lemma {:induction false} AtMostTransitive(a: string, b: string, c: string)
    requires AtMost(a, b) && AtMost(b, c)
    ensures AtMost(a, c)
  {
    if a != "" && a[0] == b[0] && b[0] == c[0] { AtMostTransitive(a[1..], b[1..], c[1..]); }
  }

  predicate Before(a: string, b: string) { AtMost(a, b) && a != b }

  /** Strictly increasing, so without repetition. */
  predicate Increasing(s: seq<string>) {
    forall i, j | 0 <= i < j < |s| :: Before(s[i], s[j])
  }

  predicate IsLeast(x: string, s: set<string>) { x in s && forall y | y in s :: AtMost(x, y) }

  lemma {:induction false} LeastExists(s: set<string>)
    requires s != {}
    ensures exists x :: IsLeast(x, s)
  {
    var x :| x in s;
    AtMostTotal(x, x);
    if s == {x} {
      assert IsLeast(x, s);
    } else {
      LeastExists(s - {x});
      var y :| IsLeast(y, s - {x});
      AtMostTotal(x, y);
      if AtMost(y, x) {
        assert IsLeast(y, s);
      } else {
        forall z | z in s ensures AtMost(x, z) {
          if z != x { AtMostTransitive(x, y, z); }
        }
        assert IsLeast(x, s);
      }
    }
  }

  lemma LeastIsUnique(x: string, y: string, s: set<string>)
    requires IsLeast(x, s) && IsLeast(y, s)
    ensures x == y
  {
    AtMostAntisymmetric(x, y);
  }

  function Least(s: set<string>): (x: string)
    requires s != {}
    ensures IsLeast(x, s)
  {
    LeastExists(s);
    assert forall x, y | IsLeast(x, s) && IsLeast(y, s) :: x == y by {
      forall x, y | IsLeast(x, s) && IsLeast(y, s) ensures x == y { LeastIsUnique(x, y, s); }
    }
    var x :| x in s && IsLeast(x, s);
    x
  }

  lemma {:induction false} SortedCons(x: string, rest: seq<string>, s: set<string>)
    requires IsLeast(x, s) && ToSet(rest) == s - {x} && Increasing(rest)
    ensures ToSet([x] + rest) == s && Increasing([x] + rest)
  {
    var r := [x] + rest;
    forall i, j | 0 <= i < j < |r| ensures Before(r[i], r[j]) {
      assert r[j] == rest[j - 1] && rest[j - 1] in ToSet(rest);
    }
    forall y ensures y in r <==> y in s {
      assert y in rest <==> y in ToSet(rest);
    }
  }

  /** The elements of a set, in order. */
  function Sorted(s: set<string>): (r: seq<string>)
    ensures ToSet(r) == s && Increasing(r) && |r| == |s|
    decreases |s|
  {
    if s == {} then []
    else
      var x := Least(s);
      var rest := Sorted(s - {x});
      SortedCons(x, rest, s);
      [x] + rest
  }

  lemma HeadIsListed(s: seq<string>)
    ensures s != [] ==> s[0] in ToSet(s)
  {
  }

}
