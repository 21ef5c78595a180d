/**
 * Walks in a causal graph, the order in which a breadth-first search comes
 * upon them, and the impacts that order calls for: all told of the graph, the
 * start, the depth and the threshold alone.
 */
module CausalWalks {
  datatype Relation =
    Renders | Styles | Imports | Requests | Triggers | DependsOn | Produces | Changes | MapsTo | DerivedFrom

  datatype Node = Node(id: string, title: string)

  datatype Edge = Edge(from: string, to: string, relation: Relation, confidence: real, evidence: seq<string>)

  datatype Impact = Impact(id: string, depth: nat, confidence: real, via: Relation, evidence: seq<string>)

  /** What a search is asked: the edges in their order, where from, how far, and how weak an edge may be. */
  datatype Bounds = Bounds(edges: seq<Edge>, start: string, most: nat, least: real)

  function Min(a: real, b: real): real { if a < b then a else b }

  predicate Eligible(b: Bounds, e: Edge) { e in b.edges && e.confidence >= b.least }

  // ------------------------------------------------------------------------ walks

  /** Eligible edges that follow one another from the start. */
  predicate IsWalk(b: Bounds, w: seq<Edge>) {
    w == [] ||
    (var n := |w| - 1; IsWalk(b, w[..n]) && Eligible(b, w[n]) && w[n].from == EndOf(b, w[..n]))
  }

  function EndOf(b: Bounds, w: seq<Edge>): string { if w == [] then b.start else w[|w| - 1].to }

  /** The least confidence along a walk, and at most one. */
  function Strength(w: seq<Edge>): real {
    if w == [] then 1.0 else Min(Strength(w[..|w| - 1]), w[|w| - 1].confidence)
  }

  predicate Reaches(b: Bounds, w: seq<Edge>, n: string) { IsWalk(b, w) && EndOf(b, w) == n && |w| <= b.most }

  lemma {:induction false} Extend(b: Bounds, w: seq<Edge>, e: Edge)
    requires IsWalk(b, w) && Eligible(b, e) && e.from == EndOf(b, w)
    ensures IsWalk(b, w + [e]) && EndOf(b, w + [e]) == e.to
    ensures Strength(w + [e]) == Min(Strength(w), e.confidence)
  {
    assert (w + [e])[..|w|] == w;
  }

  /** Every edge of the walk is at or above the level. */
  predicate KeepsTo(w: seq<Edge>, level: real) { forall e | e in w :: level <= e.confidence }

  /** A walk is as strong as the highest level it keeps to. */
  lemma {:induction false} StrengthIsLevel(w: seq<Edge>, level: real)
    ensures level <= Strength(w) <==> level <= 1.0 && KeepsTo(w, level)
  {
    if w != [] {
      var n := |w| - 1;
      StrengthIsLevel(w[..n], level);
      assert w == w[..n] + [w[n]];
      assert KeepsTo(w, level) <==> KeepsTo(w[..n], level) && level <= w[n].confidence;
    }
  }

  /** The finitely many strengths a walk can have: one, and what some eligible edge has. */
  predicate IsLevel(b: Bounds, level: real) {
    level <= 1.0 && (level == 1.0 || exists e :: e in b.edges && e.confidence >= b.least && e.confidence == level)
  }

  lemma {:induction false} StrengthIsALevel(b: Bounds, w: seq<Edge>)
    requires IsWalk(b, w)
    ensures IsLevel(b, Strength(w))
  {
    if w != [] { StrengthIsALevel(b, w[..|w| - 1]); }
  }

  // ------------------------------------------------------------------------ order

  /** Where an edge is listed first. */
  function Rank(edges: seq<Edge>, e: Edge): (k: nat)
    ensures e in edges ==> k < |edges| && edges[k] == e
  {
    if edges == [] || edges[0] == e then 0 else 1 + Rank(edges[1..], e)
  }

  lemma {:induction false} RankIsFirst(edges: seq<Edge>, k: nat)
    requires k < |edges|
    ensures Rank(edges, edges[k]) <= k
  {
    if edges[0] != edges[k] { RankIsFirst(edges[1..], k - 1); }
  }

  /** Equally long, and where they part the first takes the edge listed earlier. */
  predicate Earlier(b: Bounds, v: seq<Edge>, w: seq<Edge>) {
    |v| == |w| && v != [] &&
    (var n := |v| - 1;
     || Earlier(b, v[..n], w[..n])
     || (v[..n] == w[..n] && Rank(b.edges, v[n]) < Rank(b.edges, w[n])))
  }

  /** A breadth-first search comes upon the first before the second. */
  predicate Before(b: Bounds, v: seq<Edge>, w: seq<Edge>) { |v| < |w| || Earlier(b, v, w) }

  predicate NotAfter(b: Bounds, v: seq<Edge>, w: seq<Edge>) { v == w || Before(b, v, w) }

  lemma {:induction false} EarlierOneWay(b: Bounds, v: seq<Edge>, w: seq<Edge>)
    ensures !(Earlier(b, v, w) && Earlier(b, w, v)) && !Earlier(b, v, v)
  {
    if v != [] {
      var n := |v| - 1;
      EarlierOneWay(b, v[..n], v[..n]);
      if |v| == |w| { EarlierOneWay(b, v[..n], w[..n]); }
    }
  }

  lemma BeforeOneWay(b: Bounds, v: seq<Edge>, w: seq<Edge>)
    ensures !(Before(b, v, w) && Before(b, w, v)) && !Before(b, v, v)
    ensures NotAfter(b, v, w) && NotAfter(b, w, v) ==> v == w
  {
    EarlierOneWay(b, v, w);
  }

  lemma {:induction false} EarlierTransitive(b: Bounds, u: seq<Edge>, v: seq<Edge>, w: seq<Edge>)
    requires Earlier(b, u, v) && Earlier(b, v, w)
    ensures Earlier(b, u, w)
  {
    var n := |u| - 1;
    if Earlier(b, u[..n], v[..n]) && Earlier(b, v[..n], w[..n]) { EarlierTransitive(b, u[..n], v[..n], w[..n]); }
  }

  lemma BeforeTransitive(b: Bounds, u: seq<Edge>, v: seq<Edge>, w: seq<Edge>)
    requires NotAfter(b, u, v) && NotAfter(b, v, w)
    ensures NotAfter(b, u, w) && (Before(b, u, v) || Before(b, v, w) ==> Before(b, u, w))
  {
    if Earlier(b, u, v) && Earlier(b, v, w) { EarlierTransitive(b, u, v, w); }
  }

  lemma {:induction false} NotAfterIsNoLonger(b: Bounds, v: seq<Edge>, w: seq<Edge>)
    requires NotAfter(b, v, w)
    ensures |v| <= |w|
  {
  }

  /** What comes before still does with one more edge each, whichever edges these are. */
  lemma BeforeExtends(b: Bounds, v: seq<Edge>, w: seq<Edge>, e: Edge, f: Edge)
    ensures Before(b, v, w) ==> Before(b, v + [e], w + [f])
    ensures Rank(b.edges, e) < Rank(b.edges, f) ==> Before(b, v + [e], v + [f])
    ensures NotAfter(b, v, w) ==> NotAfter(b, v + [e], w + [e])
  {
    assert (v + [e])[..|v|] == v && (v + [f])[..|v|] == v;
    assert (w + [e])[..|w|] == w && (w + [f])[..|w|] == w;
  }

  lemma {:induction false} SomeIsEarlier(b: Bounds, v: seq<Edge>, w: seq<Edge>)
    requires IsWalk(b, v) && IsWalk(b, w) && |v| == |w|
    ensures v == w || Earlier(b, v, w) || Earlier(b, w, v)
  {
    if v != [] {
      var n := |v| - 1;
      SomeIsEarlier(b, v[..n], w[..n]);
      assert v == v[..n] + [v[n]] && w == w[..n] + [w[n]];
      assert v[n] == b.edges[Rank(b.edges, v[n])] && w[n] == b.edges[Rank(b.edges, w[n])];
    }
  }

  // ------------------------------------------------------------------ first walks

  /** The first walk to a node: of its shortest walks, the one that always takes the edge listed earliest. */
  ghost predicate IsFirst(b: Bounds, w: seq<Edge>, n: string) {
    Reaches(b, w, n) && forall v | Reaches(b, v, n) :: NotAfter(b, w, v)
  }

  lemma FirstIsUnique(b: Bounds, v: seq<Edge>, w: seq<Edge>, n: string)
    requires IsFirst(b, v, n) && IsFirst(b, w, n)
    ensures v == w
  {
    BeforeOneWay(b, v, w);
  }

  /** Equally long walks, counted in their order. */
  ghost function Place(b: Bounds, w: seq<Edge>): nat {
    if w == [] then 0 else Place(b, w[..|w| - 1]) * |b.edges| + Rank(b.edges, w[|w| - 1])
  }

  lemma {:induction false} EarlierHasLowerPlace(b: Bounds, v: seq<Edge>, w: seq<Edge>)
    requires IsWalk(b, v) && IsWalk(b, w) && Earlier(b, v, w)
    ensures Place(b, v) < Place(b, w)
  {
    var n := |v| - 1;
    if Earlier(b, v[..n], w[..n]) {
      EarlierHasLowerPlace(b, v[..n], w[..n]);
      LowerDigits(Place(b, v[..n]), Place(b, w[..n]), |b.edges|, Rank(b.edges, v[n]), Rank(b.edges, w[n]));
    }
  }

  lemma LowerDigits(p: nat, q: nat, base: nat, r: nat, s: nat)
    requires p < q && r < base
    ensures p * base + r < q * base + s
  {
    assert (p + 1) * base <= q * base;
  }

  /** Whatever can be reached has a first walk. */
  lemma {:induction false} FirstExists(b: Bounds, w: seq<Edge>, n: string) returns (first: seq<Edge>)
    requires Reaches(b, w, n)
    ensures IsFirst(b, first, n) && NotAfter(b, first, w)
    decreases |w|, Place(b, w)
  {
    if IsFirst(b, w, n) {
      first := w;
    } else {
      var v :| Reaches(b, v, n) && !NotAfter(b, w, v);
      if |v| == |w| {
        SomeIsEarlier(b, v, w);
        EarlierHasLowerPlace(b, v, w);
      }
      first := FirstExists(b, v, n);
      BeforeTransitive(b, first, v, w);
    }
  }

  // ---------------------------------------------------------------------- impacts

  /** A way to `n`: the first walk to some node, and one more edge. */
  ghost predicate IsWay(b: Bounds, w: seq<Edge>, n: string) {
    && w != [] && |w| <= b.most && EndOf(b, w) == n
    && Eligible(b, w[|w| - 1]) && IsFirst(b, w[..|w| - 1], w[|w| - 1].from)
  }

  /** Stronger, or as strong and not after. */
  predicate Stands(b: Bounds, w: seq<Edge>, v: seq<Edge>) {
    Strength(w) > Strength(v) || (Strength(w) == Strength(v) && NotAfter(b, w, v))
  }

  ghost predicate IsBest(b: Bounds, w: seq<Edge>, n: string) {
    IsWay(b, w, n) && forall v | IsWay(b, v, n) :: Stands(b, w, v)
  }

  function ImpactBy(w: seq<Edge>): Impact
    requires w != []
  {
    var e := w[|w| - 1];
    Impact(e.to, |w|, Strength(w), e.relation, e.evidence)
  }

  ghost predicate Reachable(b: Bounds, n: string) { exists w :: w != [] && Reaches(b, w, n) }

  /**
   * What a search finds: exactly the nodes some nonempty walk reaches, each by
   * the strongest way to it, and of equally strong ones by the first.
   */
  ghost predicate Found(b: Bounds, best: map<string, Impact>) {
    && (forall n :: n in best <==> Reachable(b, n))
    && (forall n | n in best :: exists w :: IsBest(b, w, n) && best[n] == ImpactBy(w))
  }

  /** The graph, the start, the depth and the threshold determine every impact, its relation and evidence included. */
  lemma FoundIsUnique(b: Bounds, best: map<string, Impact>, best': map<string, Impact>)
    requires Found(b, best) && Found(b, best')
    ensures best == best'
  {
    forall n | n in best ensures n in best' && best[n] == best'[n] {
      var v :| IsBest(b, v, n) && best[n] == ImpactBy(v);
      var w :| IsBest(b, w, n) && best'[n] == ImpactBy(w);
      BeforeOneWay(b, v, w);
    }
    forall n | n in best' ensures n in best {}
  }

  lemma WayReaches(b: Bounds, w: seq<Edge>, n: string)
    requires IsWay(b, w, n)
    ensures Reaches(b, w, n)
  {
  }

  /** Every nonempty walk ends with an edge that makes a way no longer than it. */
  lemma {:induction false} WayOfWalk(b: Bounds, w: seq<Edge>, n: string) returns (v: seq<Edge>)
    requires w != [] && Reaches(b, w, n)
    ensures IsWay(b, v, n) && |v| <= |w|
  {
    var e := w[|w| - 1];
    var first := FirstExists(b, w[..|w| - 1], e.from);
    v := first + [e];
    assert v[..|v| - 1] == first;
  }

  // ------------------------------------------------------------------ depth, exactly

  ghost predicate IsLeastDepth(b: Bounds, depth: nat, n: string) {
    forall w | w != [] && Reaches(b, w, n) :: depth <= |w|
  }

  /** A way to `n` than which none is shorter. */
  ghost predicate IsNearest(b: Bounds, w: seq<Edge>, n: string) {
    IsWay(b, w, n) && forall v | IsWay(b, v, n) :: |w| <= |v|
  }

  ghost predicate Matched(b: Bounds, v: seq<Edge>, n: string) {
    exists w :: IsNearest(b, w, n) && Strength(w) >= Strength(v)
  }

  lemma {:induction false} NearestIsLeast(b: Bounds, w: seq<Edge>, n: string)
    requires IsWay(b, w, n)
    ensures IsNearest(b, w, n) <==> IsLeastDepth(b, |w|, n)
  {
    if IsNearest(b, w, n) {
      forall u | u != [] && Reaches(b, u, n) ensures |w| <= |u| { var v := WayOfWalk(b, u, n); }
    }
    if IsLeastDepth(b, |w|, n) {
      forall v | IsWay(b, v, n) ensures |w| <= |v| { WayReaches(b, v, n); }
    }
  }

  /** No way is stronger than the best one, and none as strong is shorter. */
  lemma BestIsAhead(b: Bounds, w: seq<Edge>, v: seq<Edge>, n: string)
    requires IsBest(b, w, n) && IsWay(b, v, n)
    ensures Strength(v) <= Strength(w) && (Strength(v) == Strength(w) ==> |w| <= |v|)
  {
    assert Stands(b, w, v);
  }

  /**
   * The reported depth is the least length of a nonempty walk exactly if no
   * way to the node is stronger than every shortest way to it.
   */
  lemma DepthIsLeast(b: Bounds, best: map<string, Impact>, n: string)
    requires Found(b, best) && n in best
    ensures IsLeastDepth(b, best[n].depth, n) <==> forall v | IsWay(b, v, n) :: Matched(b, v, n)
  {
    hide IsFirst, Strength, Stands, IsLeastDepth, Reachable;
    var w :| IsBest(b, w, n) && best[n] == ImpactBy(w);
    NearestIsLeast(b, w, n);
    if IsNearest(b, w, n) {
      forall v | IsWay(b, v, n) ensures Matched(b, v, n) { BestIsAhead(b, w, v, n); }
    } else if Matched(b, w, n) {
      var u :| IsNearest(b, u, n) && Strength(u) >= Strength(w);
      BestIsAhead(b, w, u, n);
    }
  }

  // ------------------------------------------------------------- confidence, exactly

  ghost predicate IsStrongest(b: Bounds, confidence: real, n: string) {
    forall w | w != [] && Reaches(b, w, n) :: Strength(w) <= confidence
  }

  /** The edge leads on to `n` at or above the level, behind a walk with room for one more edge that keeps to it. */
  predicate LeadsOn(b: Bounds, level: real, w: seq<Edge>, e: Edge, n: string) {
    && Eligible(b, e) && e.to == n && level <= e.confidence
    && Reaches(b, w, e.from) && |w| < b.most && KeepsTo(w, level)
  }

  /** If any walk keeping to the level leads on to `n`, the first walk to some node before `n` does. */
  ghost predicate FirstWalkHolds(b: Bounds, level: real, n: string) {
    (exists w, e :: LeadsOn(b, level, w, e, n)) ==>
      exists w, e :: LeadsOn(b, level, w, e, n) && IsFirst(b, w, e.from)
  }

  lemma {:induction false} LevelOfWalk(b: Bounds, w: seq<Edge>, e: Edge, n: string, level: real)
    requires level <= 1.0 && Reaches(b, w, e.from) && Eligible(b, e) && e.to == n && |w| < b.most
    ensures LeadsOn(b, level, w, e, n) <==> level <= Strength(w + [e])
    ensures Reaches(b, w + [e], n)
  {
    Extend(b, w, e);
    StrengthIsLevel(w, level);
  }

  lemma {:induction false} StrongestHolds(b: Bounds, best: seq<Edge>, n: string, level: real)
    requires IsBest(b, best, n) && IsStrongest(b, Strength(best), n) && level <= 1.0
    ensures FirstWalkHolds(b, level, n)
  {
    if w, e :| LeadsOn(b, level, w, e, n) {
      LevelOfWalk(b, w, e, n, level);
      var first, last := best[..|best| - 1], best[|best| - 1];
      assert best == first + [last];
      LevelOfWalk(b, first, last, n, level);
    }
  }

  lemma {:induction false} HeldIsReported(b: Bounds, best: seq<Edge>, n: string, w: seq<Edge>)
    requires IsBest(b, best, n) && w != [] && Reaches(b, w, n) && FirstWalkHolds(b, Strength(w), n)
    ensures Strength(w) <= Strength(best)
  {
    var level := Strength(w);
    var rest, last := w[..|w| - 1], w[|w| - 1];
    assert w == rest + [last];
    StrengthIsLevel(w, level);
    LevelOfWalk(b, rest, last, n, level);
    assert LeadsOn(b, level, rest, last, n);
    var first, e :| LeadsOn(b, level, first, e, n) && IsFirst(b, first, e.from);
    LevelOfWalk(b, first, e, n, level);
    assert (first + [e])[..|first + [e]| - 1] == first;
    assert IsWay(b, first + [e], n);
  }

  /**
   * The reported confidence is that of the strongest walk exactly if, at every
   * level at which a walk keeping to it leads on to the node, the first walk to
   * some node before it keeps to that level and leads on as well. A node is not
   * looked at again when a longer, stronger walk arrives, so the level is lost
   * where every first walk dips below it.
   */
  lemma ConfidenceIsStrongest(b: Bounds, best: map<string, Impact>, n: string)
    requires Found(b, best) && n in best
    ensures IsStrongest(b, best[n].confidence, n) <==> forall level | IsLevel(b, level) :: FirstWalkHolds(b, level, n)
  {
    var w :| IsBest(b, w, n) && best[n] == ImpactBy(w);
    if IsStrongest(b, best[n].confidence, n) {
      forall level | IsLevel(b, level) ensures FirstWalkHolds(b, level, n) { StrongestHolds(b, w, n, level); }
    } else {
      var v :| v != [] && Reaches(b, v, n) && Strength(v) > best[n].confidence;
      StrengthIsALevel(b, v);
      if FirstWalkHolds(b, Strength(v), n) { HeldIsReported(b, w, n, v); }
    }
  }
}
