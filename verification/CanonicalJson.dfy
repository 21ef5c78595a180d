/**
 * The canonical form behind content hashes: object keys in order at every
 * depth, the last of repeated keys winning.
 */
module CanonicalJson {
  import opened Common
  import Text

  datatype Json =
    | Null | Bool(flag: bool) | Number(literal: string) | Str(text: string)
    | Array(items: seq<Json>) | Object(fields: Fields)

  type Fields = seq<(string, Json)>

  /** The value of a key: of repeated keys, the last. */
  function LastOf(fs: Fields, key: string): (r: Option<Json>)
    ensures r.Some? ==> exists i | 0 <= i < |fs| :: fs[i].0 == key && fs[i].1 == r.value
  {
    if fs == [] then None
    else if fs[|fs| - 1].0 == key then Some(fs[|fs| - 1].1)
    else LastOf(fs[..|fs| - 1], key)
  }

  /** Insert into an ordered map held as a list, replacing what was under the key. */
  function Put(fs: Fields, key: string, v: Json): Fields {
    if fs == [] then [(key, v)]
    else if fs[|fs| - 1].0 == key then fs[..|fs| - 1] + [(key, v)]
    else if Text.AtMost(fs[|fs| - 1].0, key) then fs + [(key, v)]
    else Put(fs[..|fs| - 1], key, v) + [fs[|fs| - 1]]
  }

  /** Collect into an ordered map, in the order given. */
  function Collect(fs: Fields): Fields {
    if fs == [] then [] else Put(Collect(fs[..|fs| - 1]), fs[|fs| - 1].0, fs[|fs| - 1].1)
  }

  /** `canonical_value` */
  function Canonical(v: Json): Json {
    match v
    case Object(fs) => Object(Collect(seq(|fs|, i requires 0 <= i < |fs| => (fs[i].0, Canonical(fs[i].1)))))
    case Array(items) => Array(seq(|items|, i requires 0 <= i < |items| => Canonical(items[i])))
    case _ => v
  }

  /** Equal up to the order of object keys, at every depth. */
  ghost predicate Same(a: Json, b: Json)
    decreases a
  {
    match (a, b)
    case (Object(f), Object(g)) =>
      forall k: string ::
        && (LastOf(f, k).Some? <==> LastOf(g, k).Some?)
        && (LastOf(f, k).Some? && LastOf(g, k).Some? ==> Same(LastOf(f, k).value, LastOf(g, k).value))
    case (Array(xs), Array(ys)) => |xs| == |ys| && forall i | 0 <= i < |xs| :: Same(xs[i], ys[i])
    case _ => a == b
  }

  // ---------------------------------------------------------------- ordered lists

  predicate Ordered(fs: Fields) {
    forall i, j | 0 <= i < j < |fs| :: Text.Before(fs[i].0, fs[j].0)
  }

  lemma {:induction false} PutLooksUp(fs: Fields, key: string, v: Json, k: string)
    requires Ordered(fs)
    ensures LastOf(Put(fs, key, v), k) == if k == key then Some(v) else LastOf(fs, k)
  {
    if fs != [] {
      var n := |fs| - 1;
      var r := Put(fs, key, v);
      assert r[..|r| - 1] == if fs[n].0 != key && !Text.AtMost(fs[n].0, key) then Put(fs[..n], key, v)
                             else if fs[n].0 == key then fs[..n] else fs;
      PutLooksUp(fs[..n], key, v, k);
    }
  }

  predicate HasKey(fs: Fields, k: string) { exists j | 0 <= j < |fs| :: fs[j].0 == k }

  lemma {:induction false} PutKeys(fs: Fields, key: string, v: Json, i: nat)
    requires i < |Put(fs, key, v)|
    ensures var r := Put(fs, key, v); r[i].0 == key || HasKey(fs, r[i].0)
  {
    if fs != [] && fs[|fs| - 1].0 != key && !Text.AtMost(fs[|fs| - 1].0, key) {
      var r := Put(fs[..|fs| - 1], key, v);
      if i < |r| {
        PutKeys(fs[..|fs| - 1], key, v, i);
        if HasKey(fs[..|fs| - 1], r[i].0) {
          var j :| 0 <= j < |fs| - 1 && fs[..|fs| - 1][j].0 == r[i].0;
          assert fs[j].0 == r[i].0;
        }
      }
    }
  }

  lemma {:induction false} BeforeTransitive(a: string, b: string, c: string)
    requires Text.Before(a, b) && Text.Before(b, c)
    ensures Text.Before(a, c)
  {
    Text.AtMostTransitive(a, b, c);
    if a == c { Text.AtMostAntisymmetric(a, b); }
  }

  lemma {:induction false} PutKeepsOrder(fs: Fields, key: string, v: Json)
    requires Ordered(fs)
    ensures Ordered(Put(fs, key, v))
  {
    if fs != [] {
      var n := |fs| - 1;
      if fs[n].0 == key {
      } else if Text.AtMost(fs[n].0, key) {
        forall i | 0 <= i < n ensures Text.Before(fs[i].0, key) { BeforeTransitive(fs[i].0, fs[n].0, key); }
      } else {
        Text.AtMostTotal(fs[n].0, key);
        PutKeepsOrder(fs[..n], key, v);
        var r := Put(fs[..n], key, v);
        forall i | 0 <= i < |r| ensures Text.Before(r[i].0, fs[n].0) {
          PutKeys(fs[..n], key, v, i);
          if HasKey(fs[..n], r[i].0) {
            var j :| 0 <= j < n && fs[..n][j].0 == r[i].0;
            assert Text.Before(fs[j].0, fs[n].0);
          }
        }
      }
    }
  }

  lemma {:induction false} CollectIsOrdered(fs: Fields)
    ensures Ordered(Collect(fs))
  {
    if fs != [] {
      CollectIsOrdered(fs[..|fs| - 1]);
      PutKeepsOrder(Collect(fs[..|fs| - 1]), fs[|fs| - 1].0, fs[|fs| - 1].1);
    }
  }

  lemma {:induction false} CollectLooksUp(fs: Fields, k: string)
    ensures LastOf(Collect(fs), k) == LastOf(fs, k)
  {
    if fs != [] {
      var n := |fs| - 1;
      CollectLooksUp(fs[..n], k);
      CollectIsOrdered(fs[..n]);
      PutLooksUp(Collect(fs[..n]), fs[n].0, fs[n].1, k);
    }
  }

  lemma {:induction false} LookupAt(fs: Fields, i: nat)
    requires Ordered(fs) && i < |fs|
    ensures LastOf(fs, fs[i].0) == Some(fs[i].1)
  {
    if i < |fs| - 1 {
      assert Text.Before(fs[i].0, fs[|fs| - 1].0);
      LookupAt(fs[..|fs| - 1], i);
    }
  }

  /** An ordered list is fixed by what it looks up. */
  lemma {:induction false} OrderedIsUnique(f: Fields, g: Fields)
    requires Ordered(f) && Ordered(g) && forall k :: LastOf(f, k) == LastOf(g, k)
    ensures f == g
  {
    if f == [] {
      EmptyLooksUpNothing(g);
    } else if g == [] {
      EmptyLooksUpNothing(f);
    } else {
      var m, n := |f| - 1, |g| - 1;
      LookupAt(f, m);
      LookupAt(g, n);
      assert LastOf(g, f[m].0).Some? && LastOf(f, g[n].0).Some?;
      var j :| 0 <= j < |g| && g[j].0 == f[m].0;
      var i :| 0 <= i < |f| && f[i].0 == g[n].0;
      LastKeysAgree(f[i].0, f[m].0, g[j].0, g[n].0, i == m, j == n);
      forall k ensures LastOf(f[..m], k) == LastOf(g[..n], k) {
        WithoutLast(f, k);
        WithoutLast(g, k);
      }
      OrderedIsUnique(f[..m], g[..n]);
      assert f == f[..m] + [f[m]] && g == g[..n] + [g[n]];
    }
  }

  lemma EmptyLooksUpNothing(g: Fields)
    requires Ordered(g)
    ensures g != [] ==> LastOf(g, g[0].0).Some?
  {
    if g != [] { LookupAt(g, 0); }
  }

  lemma LastKeysAgree(fi: string, fm: string, gj: string, gn: string, top: bool, top': bool)
    requires fi == gn && gj == fm && (if top then fi == fm else Text.Before(fi, fm))
    requires (if top' then gj == gn else Text.Before(gj, gn))
    ensures fm == gn
  {
    if !top && !top' { Text.AtMostAntisymmetric(fm, gn); }
  }

  lemma {:induction false} WithoutLast(f: Fields, k: string)
    requires Ordered(f) && f != []
    ensures LastOf(f[..|f| - 1], k) == if k == f[|f| - 1].0 then None else LastOf(f, k)
  {
    var n := |f| - 1;
    forall i | 0 <= i < n ensures f[..n][i].0 != f[n].0 { assert Text.Before(f[i].0, f[n].0); }
    AbsentKey(f[..n], f[n].0);
  }

  lemma {:induction false} AbsentKey(fs: Fields, k: string)
    requires forall i | 0 <= i < |fs| :: fs[i].0 != k
    ensures LastOf(fs, k) == None
  {
    if fs != [] { AbsentKey(fs[..|fs| - 1], k); }
  }

  // ------------------------------------------------------------- the canonical form

  function CanonicalFields(fs: Fields): Fields {
    seq(|fs|, i requires 0 <= i < |fs| => (fs[i].0, Canonical(fs[i].1)))
  }

  lemma {:induction false} CanonicalLooksUp(fs: Fields, k: string)
    ensures LastOf(CanonicalFields(fs), k) ==
            (match LastOf(fs, k) case None => None case Some(v) => Some(Canonical(v)))
  {
    if fs != [] {
      var n := |fs| - 1;
      assert CanonicalFields(fs)[..n] == CanonicalFields(fs[..n]);
      CanonicalLooksUp(fs[..n], k);
    }
  }

  /** Looking a key up in a canonical object is looking it up in the original. */
  lemma {:induction false} ObjectLooksUp(fs: Fields, k: string)
    ensures Canonical(Object(fs)).Object? && Ordered(Canonical(Object(fs)).fields)
    ensures LastOf(Canonical(Object(fs)).fields, k) ==
            (match LastOf(fs, k) case None => None case Some(v) => Some(Canonical(v)))
  {
    assert Canonical(Object(fs)).fields == Collect(CanonicalFields(fs));
    CollectIsOrdered(CanonicalFields(fs));
    CollectLooksUp(CanonicalFields(fs), k);
    CanonicalLooksUp(fs, k);
  }

  lemma {:induction false} SameFieldsCanonical(f: Fields, g: Fields)
    requires forall k :: LastOf(Canonical(Object(f)).fields, k) == LastOf(Canonical(Object(g)).fields, k)
    ensures Canonical(Object(f)) == Canonical(Object(g))
  {
    ObjectLooksUp(f, "");
    ObjectLooksUp(g, "");
    OrderedIsUnique(Canonical(Object(f)).fields, Canonical(Object(g)).fields);
  }

  /** Canonicalisation changes nothing but the order of keys and repeated keys. */
  lemma {:induction false} SameAsCanonical(v: Json)
    ensures Same(v, Canonical(v))
    decreases v
  {
    match v
    case Object(fs) =>
      forall k: string ensures LastOf(fs, k).Some? ==> Same(LastOf(fs, k).value, Canonical(LastOf(fs, k).value)) {
        if LastOf(fs, k).Some? { SameAsCanonical(LastOf(fs, k).value); }
      }
      forall k: string ensures
        && (LastOf(fs, k).Some? <==> LastOf(Canonical(v).fields, k).Some?)
        && (LastOf(fs, k).Some? ==> Same(LastOf(fs, k).value, LastOf(Canonical(v).fields, k).value))
      {
        ObjectLooksUp(fs, k);
      }
    case Array(items) =>
      forall i | 0 <= i < |items| ensures Same(items[i], Canonical(items[i])) { SameAsCanonical(items[i]); }
    case _ =>
  }

  /** Two values have one canonical form exactly when they are equal up to the order of object keys, at every depth. */
  lemma {:induction false} CanonicalIsExact(a: Json, b: Json)
    ensures Canonical(a) == Canonical(b) <==> Same(a, b)
    decreases a, 1
  {
    match (a, b)
    case (Object(f), Object(g)) => ObjectsAreExact(f, g);
    case (Array(xs), Array(ys)) =>
      if |xs| == |ys| {
        forall i | 0 <= i < |xs| ensures Canonical(xs[i]) == Canonical(ys[i]) <==> Same(xs[i], ys[i]) {
          CanonicalIsExact(xs[i], ys[i]);
        }
        if Canonical(a) == Canonical(b) {
          forall i | 0 <= i < |xs| ensures Canonical(xs[i]) == Canonical(ys[i]) {
            assert Canonical(a).items[i] == Canonical(b).items[i];
          }
        }
      } else {
        assert |Canonical(a).items| == |xs| && |Canonical(b).items| == |ys|;
      }
    case _ =>
  }

  lemma {:induction false} ObjectsAreExact(f: Fields, g: Fields)
    ensures Canonical(Object(f)) == Canonical(Object(g)) <==> Same(Object(f), Object(g))
    decreases Object(f), 0
  {
    forall k: string
      ensures LastOf(f, k).Some? && LastOf(g, k).Some? ==>
                (Canonical(LastOf(f, k).value) == Canonical(LastOf(g, k).value) <==>
                  Same(LastOf(f, k).value, LastOf(g, k).value))
    {
      if LastOf(f, k).Some? && LastOf(g, k).Some? { CanonicalIsExact(LastOf(f, k).value, LastOf(g, k).value); }
    }
    forall k: string
      ensures LastOf(Canonical(Object(f)).fields, k)
              == (match LastOf(f, k) case None => None case Some(v) => Some(Canonical(v)))
      ensures LastOf(Canonical(Object(g)).fields, k)
              == (match LastOf(g, k) case None => None case Some(v) => Some(Canonical(v)))
    {
      ObjectLooksUp(f, k);
      ObjectLooksUp(g, k);
    }
    if Same(Object(f), Object(g)) {
      SameFieldsCanonical(f, g);
    }
  }

  lemma CanonicalIsIdempotent(v: Json)
    ensures Canonical(Canonical(v)) == Canonical(v)
  {
    SameAsCanonical(v);
    CanonicalIsExact(v, Canonical(v));
  }
}
