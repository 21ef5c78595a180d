/** The causal graph as an object: edges merged in place, and the queue loop of the blast radius. */
module CausalGraph {
  import opened Common
  import opened Causal
  import opened CausalWalks
  import Text

  predicate SameEdge(a: Edge, b: Edge) { a.from == b.from && a.to == b.to && a.relation == b.relation }

  function Clamp(x: real): real { if x < 0.0 then 0.0 else if x > 1.0 then 1.0 else x }

  function Larger(a: real, b: real): real { if b > a then b else a }

  /** An edge seen again: the larger confidence, and the evidence of both without repetition. */
  function Merged(old_: Edge, e: Edge): Edge {
    old_.(confidence := Larger(old_.confidence, e.confidence),
          evidence := Text.Sorted(ToSet(old_.evidence + e.evidence)))
  }

  // ------------------------------------------------------------- what merging keeps

  /** The proportion nearest to a number. */
  predicate IsProportionOf(c: real, x: real) { 0.0 <= c <= 1.0 && (c < x ==> c == 1.0) && (c > x ==> c == 0.0) }

  /** A merged edge: as strong as the stronger of the two, with the evidence of both, each piece once and in order. */
  ghost predicate Unites(m: Edge, stored: Edge, given: Edge) {
    && SameEdge(m, stored) && SameEdge(m, given) && stored.confidence <= m.confidence
    && (forall c | IsProportionOf(c, given.confidence) ::
          c <= m.confidence && (m.confidence == stored.confidence || m.confidence == c))
    && Text.Increasing(m.evidence) && ToSet(m.evidence) == ToSet(stored.evidence) + ToSet(given.evidence)
  }

  /** An edge stands for all that was ever added in its place: the greatest confidence, and every piece of evidence. */
  ghost predicate StandsForAll(e: Edge, history: seq<Edge>) {
    && (exists a :: a in history && SameEdge(a, e) && IsProportionOf(e.confidence, a.confidence))
    && (forall a, c | a in history && SameEdge(a, e) && IsProportionOf(c, a.confidence) :: c <= e.confidence)
    && (forall x :: x in e.evidence <==> exists a :: a in history && SameEdge(a, e) && x in a.evidence)
  }

  lemma ClampIsProportion(x: real, c: real)
    ensures IsProportionOf(c, x) <==> c == Clamp(x)
  {
  }

  lemma MergedUnites(stored: Edge, given: Edge)
    requires SameEdge(stored, given) && 0.0 <= stored.confidence <= 1.0
    ensures Unites(Merged(stored, given.(confidence := Clamp(given.confidence))), stored, given)
    ensures 0.0 <= Merged(stored, given.(confidence := Clamp(given.confidence))).confidence <= 1.0
  {
    hide Clamp, IsProportionOf;
    forall c | IsProportionOf(c, given.confidence) ensures c == Clamp(given.confidence) {
      ClampIsProportion(given.confidence, c);
    }
    ClampIsProportion(given.confidence, Clamp(given.confidence));
    ProportionBounds(Clamp(given.confidence), given.confidence);
  }

  lemma ProportionBounds(c: real, x: real)
    requires IsProportionOf(c, x)
    ensures 0.0 <= c <= 1.0
  {
  }

  lemma {:induction false} OthersStand(e: Edge, history: seq<Edge>, given: Edge)
    requires StandsForAll(e, history) && !SameEdge(e, given)
    ensures StandsForAll(e, history + [given])
  {
    hide IsProportionOf;
    var more := history + [given];
    assert forall a :: a in more <==> a in history || a == given;
    assert forall x, a | a in more && SameEdge(a, e) && x in a.evidence :: a in history;
  }

  lemma {:induction false} FirstStands(e: Edge, history: seq<Edge>, given: Edge)
    requires SameEdge(e, given) && IsProportionOf(e.confidence, given.confidence) && e.evidence == given.evidence
    requires forall a | a in history :: !SameEdge(a, given)
    ensures StandsForAll(e, history + [given])
  {
    var more := history + [given];
    assert forall a :: a in more <==> a in history || a == given;
    assert given in more && forall a | a in more && SameEdge(a, e) :: a == given;
  }

  lemma {:induction false} UnitedStands(m: Edge, stored: Edge, history: seq<Edge>, given: Edge)
    requires StandsForAll(stored, history) && Unites(m, stored, given)
    ensures StandsForAll(m, history + [given])
  {
    hide IsProportionOf;
    var more := history + [given];
    assert forall a :: a in more <==> a in history || a == given;
    ClampIsProportion(given.confidence, Clamp(given.confidence));
    assert given in more;
    forall x ensures x in m.evidence <==> exists a :: a in more && SameEdge(a, m) && x in a.evidence {
      assert x in m.evidence <==> x in ToSet(m.evidence);
      if x in stored.evidence {
        var a :| a in history && SameEdge(a, stored) && x in a.evidence;
        assert a in more && SameEdge(a, m);
      }
      if a :| a in more && SameEdge(a, m) && x in a.evidence {
        if a in history { assert SameEdge(a, stored) && x in stored.evidence; }
      }
    }
  }

  lemma UnitedIsSame(m: Edge, stored: Edge, given: Edge)
    requires Unites(m, stored, given)
    ensures SameEdge(m, stored) && SameEdge(m, given)
  {
  }

  // ------------------------------------------------------------ order of impacts

  /** Nearer first, then stronger, then by id. */
  predicate Sooner(a: Impact, b: Impact) {
    || a.depth < b.depth
    || (a.depth == b.depth
        && (a.confidence > b.confidence || (a.confidence == b.confidence && Text.AtMost(a.id, b.id))))
  }

  predicate InOrder(s: seq<Impact>) { forall i, j | 0 <= i < j < |s| :: Sooner(s[i], s[j]) }

  lemma SoonerTotal(a: Impact, b: Impact)
    ensures Sooner(a, b) || Sooner(b, a)
  {
    Text.AtMostTotal(a.id, b.id);
  }

  lemma SoonerTransitive(a: Impact, b: Impact, c: Impact)
    requires Sooner(a, b) && Sooner(b, c)
    ensures Sooner(a, c)
  {
    if a.depth == b.depth == c.depth && a.confidence == b.confidence == c.confidence {
      Text.AtMostTransitive(a.id, b.id, c.id);
    }
  }

  function Insert(s: seq<Impact>, x: Impact): (r: seq<Impact>)
    ensures multiset(r) == multiset(s) + multiset{x}
  {
    if s == [] || Sooner(x, s[0]) then [x] + s
    else
      assert s == [s[0]] + s[1..];
      [s[0]] + Insert(s[1..], x)
  }

  lemma {:induction false} InsertKeepsOrder(s: seq<Impact>, x: Impact)
    requires InOrder(s)
    ensures InOrder(Insert(s, x))
  {
    if s == [] {
    } else if Sooner(x, s[0]) {
      forall i | 0 < i < |s| ensures Sooner(x, s[i]) { SoonerTransitive(x, s[0], s[i]); }
    } else {
      SoonerTotal(x, s[0]);
      InsertKeepsOrder(s[1..], x);
      var rest := Insert(s[1..], x);
      forall y | y in rest ensures Sooner(s[0], y) {
        assert y in multiset(rest);
        if y != x {
          assert y in multiset(s[1..]);
          var k :| 0 <= k < |s[1..]| && s[1..][k] == y;
          assert s[k + 1] == y;
        }
      }
    }
  }

  /** `into_values`: in key order. */
  method ValuesOf(best: map<string, Impact>) returns (values: seq<Impact>)
    ensures |values| == |best| && forall i :: i in values <==> exists n :: n in best && best[n] == i
  {
    var ids := Text.Sorted(best.Keys);
    values := seq(|ids|, k requires 0 <= k < |ids| => assert ids[k] in ToSet(ids); best[ids[k]]);
    forall n | n in best ensures best[n] in values {
      assert n in ToSet(ids);
      var k :| 0 <= k < |ids| && ids[k] == n;
      assert values[k] == best[n];
    }
    forall i | i in values ensures exists n :: n in best && best[n] == i {
      var k :| 0 <= k < |values| && values[k] == i;
      assert ids[k] in ToSet(ids) && best[ids[k]] == i;
    }
  }

  method SortImpacts(values: seq<Impact>) returns (r: seq<Impact>)
    ensures InOrder(r) && multiset(r) == multiset(values)
  {
    r := [];
    for k := 0 to |values|
      invariant InOrder(r) && multiset(r) == multiset(values[..k])
    {
      assert values[..k + 1] == values[..k] + [values[k]];
      InsertKeepsOrder(r, values[k]);
      r := Insert(r, values[k]);
    }
    assert values[..|values|] == values;
  }

  /** The impacts of a search, each once, in reporting order. */
  ghost predicate Lists(best: map<string, Impact>, r: seq<Impact>) {
    && InOrder(r) && |r| == |best|
    && (forall n | n in best :: best[n] in r)
    && (forall i | i in r :: i.id in best && best[i.id] == i)
  }

  method Report(best: map<string, Impact>) returns (r: seq<Impact>)
    requires forall n | n in best :: best[n].id == n
    ensures Lists(best, r)
  {
    var values := ValuesOf(best);
    r := SortImpacts(values);
    assert |r| == |multiset(r)| && |values| == |multiset(values)|;
    forall n | n in best ensures best[n] in r {
      assert best[n] in values && best[n] in multiset(values) && best[n] in multiset(r);
    }
    forall i | i in r ensures i.id in best && best[i.id] == i {
      assert i in multiset(r) && i in multiset(values) && i in values;
    }
  }

  class CausalGraph {
    var nodes: map<string, Node>
    var edges: seq<Edge>
    /** Every edge ever accepted, as it was given. */
    ghost var history: seq<Edge>

    /**
     * Endpoints exist, confidences are proportions, no edge is listed twice,
     * and the edges stand for everything that was ever added.
     */
    ghost predicate Valid()
      reads this
    {
      && (forall n | n in nodes :: nodes[n].id == n)
      && (forall i | 0 <= i < |edges| ::
           edges[i].from in nodes && edges[i].to in nodes && 0.0 <= edges[i].confidence <= 1.0)
      && (forall i, j | 0 <= i < j < |edges| :: !SameEdge(edges[i], edges[j]))
      && (forall i | 0 <= i < |edges| :: StandsForAll(edges[i], history))
      && (forall a | a in history :: Listed(a))
    }

    /** Some edge has these endpoints and this relation. */
    predicate Listed(a: Edge)
      reads this`edges
    {
      exists i :: 0 <= i < |edges| && SameEdge(edges[i], a)
    }

    constructor ()
      ensures Valid() && nodes == map[] && edges == [] && history == []
    {
      nodes, edges, history := map[], [], [];
    }

    method UpsertNode(n: Node)
      requires Valid()
      modifies this`nodes
      ensures Valid() && nodes == old(nodes)[n.id := n]
    {
      nodes := nodes[n.id := n];
    }

    /**
     * `add_edge`: refused without its endpoints, united with the same edge in
     * its place, appended otherwise; all other edges stay as they are.
     */
    method AddEdge(given: Edge) returns (added: bool)
      requires Valid()
      modifies this`edges, this`history
      ensures Valid()
      ensures added <==> given.from in nodes && given.to in nodes
      ensures history == old(history) + (if added then [given] else [])
      ensures !added ==> edges == old(edges)
      ensures added ==> |edges| == |old(edges)| + (if old(Listed(given)) then 0 else 1) && Listed(given)
      ensures added && !old(Listed(given)) ==>
                && SameEdge(edges[|old(edges)|], given) && edges[|old(edges)|].evidence == given.evidence
                && IsProportionOf(edges[|old(edges)|].confidence, given.confidence)
      ensures forall i | 0 <= i < |old(edges)| ::
                if added && SameEdge(old(edges)[i], given) then Unites(edges[i], old(edges)[i], given)
                else edges[i] == old(edges)[i]
    {
      hide StandsForAll, Unites, IsProportionOf;
      if given.from !in nodes || given.to !in nodes { return false; }
      var e := given.(confidence := Clamp(given.confidence));
      for i := 0 to |edges|
        invariant forall j | 0 <= j < i :: !SameEdge(edges[j], e)
        invariant edges == old(edges) && history == old(history)
      {
        if SameEdge(edges[i], e) {
          Unite(i, given, e);
          return true;
        }
      }
      Append(given, e);
      return true;
    }

    /** The same edge is listed: unite the two in its place. */
    method Unite(i: nat, given: Edge, e: Edge)
      requires Valid() && i < |edges| && SameEdge(edges[i], given)
      requires e == given.(confidence := Clamp(given.confidence))
      modifies this`edges, this`history
      ensures Valid() && history == old(history) + [given]
      ensures |edges| == |old(edges)| && Unites(edges[i], old(edges)[i], given)
      ensures forall j | 0 <= j < |edges| && j != i :: edges[j] == old(edges)[j] && !SameEdge(edges[j], given)
    {
      hide StandsForAll, Unites, IsProportionOf, Clamp, Merged;
      MergedUnites(edges[i], given);
      UnitedIsSame(Merged(edges[i], e), edges[i], given);
      UnitedStands(Merged(edges[i], e), edges[i], history, given);
      forall j | 0 <= j < |edges| && j != i
        ensures !SameEdge(edges[j], given) && StandsForAll(edges[j], history + [given])
      {
        OthersStand(edges[j], history, given);
      }
      edges := edges[i := Merged(edges[i], e)];
      history := history + [given];
      assert forall j | 0 <= j < |edges| :: SameEdge(edges[j], old(edges)[j]);
      forall a | a in history ensures Listed(a) {
        if a == given {
          assert SameEdge(edges[i], a);
        } else {
          var j :| 0 <= j < |edges| && SameEdge(old(edges)[j], a);
          assert SameEdge(edges[j], a);
        }
      }
    }

    /** No such edge is listed: it goes to the end. */
    method Append(given: Edge, e: Edge)
      requires Valid() && given.from in nodes && given.to in nodes
      requires forall j | 0 <= j < |edges| :: !SameEdge(edges[j], given)
      requires e == given.(confidence := Clamp(given.confidence))
      modifies this`edges, this`history
      ensures Valid() && history == old(history) + [given] && edges == old(edges) + [e]
      ensures IsProportionOf(e.confidence, given.confidence)
    {
      hide StandsForAll, IsProportionOf, Clamp;
      ClampIsProportion(given.confidence, e.confidence);
      ProportionBounds(e.confidence, given.confidence);
      forall a | a in history ensures !SameEdge(a, given) {
        assert Listed(a);
        var j :| 0 <= j < |edges| && SameEdge(edges[j], a);
      }
      FirstStands(e, history, given);
      forall j | 0 <= j < |edges| ensures StandsForAll(edges[j], history + [given]) {
        OthersStand(edges[j], history, given);
      }
      edges := edges + [e];
      history := history + [given];
      forall a | a in history ensures Listed(a) {
        if a in old(history) {
          var j :| 0 <= j < |old(edges)| && SameEdge(old(edges)[j], a);
          assert SameEdge(edges[j], a);
        } else {
          assert SameEdge(edges[|old(edges)|], a);
        }
      }
    }

    /** `blast_radius` */
    method BlastRadius(start: string, maxDepth: nat, minConfidence: real) returns (r: seq<Impact>)
      ensures start !in nodes ==> r == []
      ensures start in nodes ==>
                exists best :: Lists(best, r) && Found(Bounds(edges, start, maxDepth, minConfidence), best)
    {
      if start !in nodes { return []; }
      var best := SearchFrom(edges, start, maxDepth, minConfidence);
      FoundHasIds(Bounds(edges, start, maxDepth, minConfidence), best);
      r := Report(best);
    }
  }

  lemma FoundHasIds(b: Bounds, best: map<string, Impact>)
    requires Found(b, best)
    ensures forall n | n in best :: best[n].id == n
  {
    forall n | n in best ensures best[n].id == n {
      var w :| IsBest(b, w, n) && best[n] == ImpactBy(w);
    }
  }

  /** Every node an edge leads to, and the start: all a search can label. */
  ghost function Universe(b: Bounds): set<string> { (set e | e in b.edges :: e.to) + {b.start} }

  lemma {:induction false} LabelsAreFinite(b: Bounds, s: Search)
    requires Labelled(b, s)
    ensures s.visited.Keys <= Universe(b)
  {
    forall n | n in s.visited ensures n in Universe(b) {
      var w := s.walks[n];
      if w != [] { assert w[|w| - 1] in b.edges; }
    }
  }

  /** The search while `head` is being expanded. */
  ghost predicate Expanding(b: Bounds, s: Search, head: Entry, k: nat) {
    Inv(b, s, head.id, k) && Latest(b, s, head.id) && Honest(s, head)
  }

  /** Follow one strong enough edge off the node just popped. */
  method FollowEdge(e: Edge, head: Entry, queue0: seq<Entry>, best0: map<string, Impact>, visited0: map<string, nat>,
                    ghost s: Search)
    returns (queue: seq<Entry>, best: map<string, Impact>, visited: map<string, nat>)
    requires head.id in s.walks && |s.walks[head.id]| == head.depth && Strength(s.walks[head.id]) == head.confidence
    requires s.queue == queue0 && s.best == best0 && s.visited == visited0
    ensures var s' := Relax(s, head.id, e); s'.queue == queue && s'.best == best && s'.visited == visited
  {
    queue, best, visited := queue0, best0, visited0;
    var nextDepth := head.depth + 1;
    var nextConfidence := Min(head.confidence, e.confidence);
    var candidate := Impact(e.to, nextDepth, nextConfidence, e.relation, e.evidence);
    assert candidate == ImpactBy(s.walks[head.id] + [e]) by {
      assert (s.walks[head.id] + [e])[..head.depth] == s.walks[head.id];
    }
    if e.to !in best || candidate.confidence > best[e.to].confidence {
      best := best[e.to := candidate];
    }
    if e.to !in visited || nextDepth < visited[e.to] {
      visited := visited[e.to := nextDepth];
      queue := queue + [Entry(e.to, nextDepth, nextConfidence)];
    }
  }

  /** Look at one edge: follow it if it starts here and is strong enough. */
  function FollowStep(b: Bounds, s: Search, x: string, e: Edge): (r: Search)
    requires x in s.walks
    ensures x in r.walks
  {
    if e.from == x && e.confidence >= b.least then Relax(s, x, e) else s
  }

  /** What the loop needs to know at each edge, and what it goes on with. */
  lemma {:induction false} LoopGoesOn(b: Bounds, s: Search, head: Entry, k: nat)
    requires Expanding(b, s, head, k) && k < |b.edges| && head.depth < b.most
    ensures head.id in s.walks && |s.walks[head.id]| == head.depth && Strength(s.walks[head.id]) == head.confidence
    ensures Expanding(b, FollowStep(b, s, head.id, b.edges[k]), head, k + 1)
    ensures var s' := FollowStep(b, s, head.id, b.edges[k]);
            s.visited.Keys <= s'.visited.Keys && (s'.visited.Keys == s.visited.Keys ==> s'.queue == s.queue)
  {
    hide Ranked, Backed, Closed, Latest, Strength, Reaches;
    assert Expanding(b, s, head, k);
    if b.edges[k].from == head.id && b.edges[k].confidence >= b.least {
      assert Follows(b, s, head.id, k);
      RelaxKeeps(b, s, head.id, k);
      HeadStays(b, s, head, k);
    } else {
      Skipped(b, s, head.id, k);
    }
  }

  lemma {:induction false} HeadStays(b: Bounds, s: Search, head: Entry, k: nat)
    requires Follows(b, s, head.id, k) && Honest(s, head)
    ensures var s' := Relax(s, head.id, b.edges[k]);
            && Honest(s', head) && s.visited.Keys <= s'.visited.Keys
            && (s'.visited.Keys == s.visited.Keys ==> s'.queue == s.queue)
  {
    hide Ranked, Backed, Closed, Latest, Strength, Reaches;
    RankIsFirst(b.edges, k);
    if Rank(b.edges, b.edges[k]) < k {
      Repeated(b, s, head.id, k);
    } else {
      NewLabel(b, s, head.id, k);
      RelaxApart(s, s.walks[head.id] + [b.edges[k]]);
    }
  }

  /** The inner loop over all edges. */
  method FollowEdges(edges: seq<Edge>, minConfidence: real, head: Entry, queue0: seq<Entry>, best0: map<string, Impact>,
                     visited0: map<string, nat>, ghost b: Bounds, ghost s0: Search)
    returns (queue: seq<Entry>, best: map<string, Impact>, visited: map<string, nat>, ghost s: Search)
    requires b.edges == edges && b.least == minConfidence && head.depth < b.most
    requires Expanding(b, s0, head, 0) && s0.queue == queue0 && s0.best == best0 && s0.visited == visited0
    ensures Expanding(b, s, head, |edges|) && s.queue == queue && s.best == best && s.visited == visited
    ensures visited0.Keys <= visited.Keys && (visited.Keys == visited0.Keys ==> queue == queue0)
  {
    hide Expanding;
    queue, best, visited, s := queue0, best0, visited0, s0;
    for k := 0 to |edges|
      invariant Expanding(b, s, head, k) && s.queue == queue && s.best == best && s.visited == visited
      invariant visited0.Keys <= visited.Keys && (visited.Keys == visited0.Keys ==> queue == queue0)
    {
      var e := edges[k];
      LoopGoesOn(b, s, head, k);
      if e.from == head.id && e.confidence >= minConfidence {
        queue, best, visited := FollowEdge(e, head, queue, best, visited, s);
      }
      s := FollowStep(b, s, head.id, e);
    }
  }

  /** Between two pops. */
  ghost predicate Resting(b: Bounds, s: Search) { Inv(b, s, b.start, |b.edges|) }

  lemma RestingBegins(b: Bounds)
    ensures Resting(b, Begin(b))
  {
    BeginHolds(b);
  }

  lemma {:induction false} RestingPops(b: Bounds, s: Search)
    requires Resting(b, s) && s.queue != []
    ensures if s.queue[0].depth < b.most then Expanding(b, Pop(s), s.queue[0], 0) else Resting(b, Pop(s))
  {
    hide Labelled, Ranked, Backed, Closed, Latest;
    assert Inv(b, s, b.start, |b.edges|);
    PopKeeps(b, s, b.start);
    if s.queue[0].depth >= b.most {
      HonestIsLabelled(b, s, s.queue[0]);
      TooDeep(b, Pop(s), s.queue[0].id);
      Everywhere(b, Pop(s), s.queue[0].id, b.start);
    }
  }

  lemma {:induction false} ExpandingRests(b: Bounds, s: Search, head: Entry)
    requires Expanding(b, s, head, |b.edges|)
    ensures Resting(b, s) && s.visited.Keys <= Universe(b)
  {
    assert Expanding(b, s, head, |b.edges|);
    LabelsAreFinite(b, s);
    Everywhere(b, s, head.id, b.start);
  }

  lemma {:induction false} RestingFinds(b: Bounds, s: Search)
    requires Resting(b, s) && s.queue == []
    ensures Found(b, s.best)
  {
    hide Labelled, Ranked, Backed, Closed, Found;
    assert Inv(b, s, b.start, |b.edges|);
    SearchFinds(b, s);
  }

  /** The queue loop, from a registered start. */
  method SearchFrom(edges: seq<Edge>, start: string, maxDepth: nat, minConfidence: real)
    returns (best: map<string, Impact>)
    ensures Found(Bounds(edges, start, maxDepth, minConfidence), best)
  {
    hide Resting, Expanding, Found;
    ghost var b := Bounds(edges, start, maxDepth, minConfidence);
    ghost var s := Begin(b);
    RestingBegins(b);
    var queue := [Entry(start, 0, 1.0)];
    var visited := map[start := 0];
    best := map[];
    while queue != []
      invariant Resting(b, s) && s.queue == queue && s.best == best && s.visited == visited
      decreases |Universe(b) - visited.Keys|, |queue|
    {
      var head := queue[0];
      RestingPops(b, s);
      s := Pop(s);
      queue := queue[1..];
      if head.depth < maxDepth {
        ghost var before := visited;
        queue, best, visited, s := FollowEdges(edges, minConfidence, head, queue, best, visited, b, s);
        ExpandingRests(b, s, head);
        FewerLeft(Universe(b), before.Keys, visited.Keys);
      }
    }
    RestingFinds(b, s);
  }

  lemma {:induction false} FewerLeft(all: set<string>, before: set<string>, after: set<string>)
    requires before <= after <= all
    ensures before == after || |all - after| < |all - before|
  {
    if before != after {
      var x :| x in after && x !in before;
      SubsetSize(all - after, all - before - {x});
    }
  }
}
