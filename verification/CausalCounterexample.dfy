/** A graph whose impacts are neither the nearest nor the strongest. */
module CausalCounterexample {
  import opened CausalWalks

  const AC := Edge("a", "c", Imports, 0.5, [])
  const AB := Edge("a", "b", Imports, 0.9, [])
  const BC := Edge("b", "c", Imports, 0.9, [])
  const CT := Edge("c", "t", Imports, 0.9, [])

  /** A weak edge to `c`, a strong detour by `b`, and `t` behind `c`. */
  const DETOUR := Bounds([AC, AB, BC, CT], "a", 3, 0.0)

  lemma {:induction false} OneStep(e: Edge)
    requires e == AC || e == AB
    ensures Reaches(DETOUR, [e], e.to) && Strength([e]) == e.confidence && IsFirst(DETOUR, [e], e.to)
  {
    Extend(DETOUR, [], e);
    assert [] + [e] == [e];
    var first := FirstExists(DETOUR, [e], e.to);
    NotAfterIsNoLonger(DETOUR, first, [e]);
    assert first == [first[0]] && first[..0] == [];
  }

  /** One more edge behind the first step. */
  lemma {:induction false} TwoSteps(e: Edge, f: Edge)
    requires (e == AB && f == BC) || (e == AC && f == CT)
    ensures IsWay(DETOUR, [e, f], f.to) && Strength([e, f]) == Min(e.confidence, f.confidence)
  {
    OneStep(e);
    Extend(DETOUR, [e], f);
    assert [e] + [f] == [e, f] && [e, f][..1] == [e];
  }

  /** A way that ends with the second edge takes the first step before it. */
  lemma {:induction false} WayByTwo(e: Edge, f: Edge, w: seq<Edge>)
    requires (e == AB && f == BC) || (e == AC && f == CT)
    requires IsWay(DETOUR, w, f.to) && w[|w| - 1] == f
    ensures w == [e, f]
  {
    OneStep(e);
    FirstIsUnique(DETOUR, w[..|w| - 1], [e], e.to);
    assert w == w[..|w| - 1] + [f];
  }

  lemma {:induction false} BestWayToC(w: seq<Edge>)
    requires IsBest(DETOUR, w, "c")
    ensures w == [AB, BC]
  {
    hide IsFirst, Before;
    TwoSteps(AB, BC);
    BestIsAhead(DETOUR, w, [AB, BC], "c");
    if w[|w| - 1] == BC { WayByTwo(AB, BC, w); }
  }

  lemma {:induction false} BestWayToT(w: seq<Edge>)
    requires IsBest(DETOUR, w, "t")
    ensures w == [AC, CT]
  {
    hide IsFirst, Before, Stands;
    WayByTwo(AC, CT, w);
  }

  /** The detour replaces the direct edge, depth and all: the reported depth is not that of a shortest walk. */
  lemma ReportedDepthNeedNotBeShortest(best: map<string, Impact>)
    requires Found(DETOUR, best)
    ensures "c" in best && best["c"].depth == 2 && Reaches(DETOUR, [AC], "c")
  {
    hide Stands, IsFirst, Reaches, IsWalk;
    OneStep(AC);
    assert Reachable(DETOUR, "c");
    var w :| IsBest(DETOUR, w, "c") && best["c"] == ImpactBy(w);
    BestWayToC(w);
  }

  lemma {:induction false} ThreeSteps()
    ensures Reaches(DETOUR, [AB, BC, CT], "t") && Strength([AB, BC, CT]) == 0.9
  {
    hide IsFirst;
    TwoSteps(AB, BC);
    WayReaches(DETOUR, [AB, BC], "c");
    Extend(DETOUR, [AB, BC], CT);
    assert [AB, BC] + [CT] == [AB, BC, CT];
  }

  /** Behind `c` the detour comes too late: the reported confidence is not that of the strongest walk. */
  lemma ConfidenceNeedNotBeStrongest(best: map<string, Impact>)
    requires Found(DETOUR, best)
    ensures "t" in best && best["t"].confidence == 0.5
    ensures Reaches(DETOUR, [AB, BC, CT], "t") && Strength([AB, BC, CT]) == 0.9
  {
    hide Stands, IsFirst, Reaches, IsWalk;
    ThreeSteps();
    TwoSteps(AC, CT);
    assert Reachable(DETOUR, "t");
    var w :| IsBest(DETOUR, w, "t") && best["t"] == ImpactBy(w);
    BestWayToT(w);
  }
}
