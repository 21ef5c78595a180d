/**
 * The search behind the blast radius, step by step: what each followed edge
 * keeps, and that the whole search finds what the graph alone calls for.
 */
module Causal {
  import opened CausalWalks

  datatype Entry = Entry(id: string, depth: nat, confidence: real)

  /**
   * The search between two pops: its queue and maps, with the walk behind every
   * label, the way behind every impact, and what was expanded.
   */
  datatype Search = Search(
    queue: seq<Entry>, best: map<string, Impact>, visited: map<string, nat>,
    walks: map<string, seq<Edge>>, ways: map<string, seq<Edge>>, expanded: set<string>)

  predicate Honest(s: Search, q: Entry) {
    q.id in s.visited && q.id in s.walks && q.depth == s.visited[q.id] && q.confidence == Strength(s.walks[q.id])
  }

  /** Every label is the length of a walk, and queued entries carry the strength of theirs. */
  predicate Labelled(b: Bounds, s: Search) {
    && s.walks.Keys == s.visited.Keys && s.expanded <= s.walks.Keys && b.start in s.walks && s.walks[b.start] == []
    && (forall n | n in s.walks :: Reaches(b, s.walks[n], n) && s.visited[n] == |s.walks[n]|)
    && (forall i | 0 <= i < |s.queue| :: Honest(s, s.queue[i]))
  }

  lemma HonestIsLabelled(b: Bounds, s: Search, q: Entry)
    requires Labelled(b, s) && Honest(s, q)
    ensures q.id in s.walks && |s.walks[q.id]| == q.depth
  {
  }

  predicate Queued(queue: seq<Entry>, n: string) { exists i | 0 <= i < |queue| :: queue[i].id == n }

  /** Walks wait in their order, behind all that were expanded, and every label is expanded or waiting. */
  predicate Ranked(b: Bounds, s: Search)
    requires Labelled(b, s)
  {
    && (forall i, j | 0 <= i < j < |s.queue| :: Before(b, s.walks[s.queue[i].id], s.walks[s.queue[j].id]))
    && (forall x, i | x in s.expanded && 0 <= i < |s.queue| :: Before(b, s.walks[x], s.walks[s.queue[i].id]))
    && (forall n | n in s.walks :: n in s.expanded || Queued(s.queue, n))
  }

  /** No other expanded node comes after the one being expanded. */
  predicate Latest(b: Bounds, s: Search, current: string)
    requires s.expanded <= s.walks.Keys
  {
    current in s.expanded && forall x | x in s.expanded && x != current :: Before(b, s.walks[x], s.walks[current])
  }

  /** The walk has been come upon: its last edge led off an expanded node, and off `current` is before the `k`-th. */
  predicate Past(b: Bounds, s: Search, current: string, k: nat, w: seq<Edge>) {
    w == [] ||
    (var e := w[|w| - 1];
     && Eligible(b, e) && e.from in s.expanded && e.from in s.walks
     && w == s.walks[e.from] + [e] && |w| <= b.most && (e.from == current ==> Rank(b.edges, e) < k))
  }

  /** Every label and every impact has its walk behind it. */
  predicate Backed(b: Bounds, s: Search, current: string, k: nat) {
    && s.ways.Keys == s.best.Keys
    && (forall n | n in s.walks :: Past(b, s, current, k, s.walks[n]))
    && (forall n | n in s.ways :: s.ways[n] != [] && EndOf(b, s.ways[n]) == n
          && Past(b, s, current, k, s.ways[n]) && s.best[n] == ImpactBy(s.ways[n]))
  }

  /** This edge from an expanded node has been followed. */
  predicate Followed(b: Bounds, s: Search, x: string, e: Edge) {
    x in s.walks && |s.walks[x]| < b.most ==>
      && e.to in s.walks && NotAfter(b, s.walks[e.to], s.walks[x] + [e])
      && e.to in s.ways && Stands(b, s.ways[e.to], s.walks[x] + [e])
  }

  /** All edges from expanded nodes have been followed, those from `current` up to the `k`-th. */
  ghost predicate Closed(b: Bounds, s: Search, current: string, k: nat) {
    forall e | Eligible(b, e) && e.from in s.expanded && (e.from != current || Rank(b.edges, e) < k) ::
      Followed(b, s, e.from, e)
  }

  ghost predicate Inv(b: Bounds, s: Search, current: string, k: nat) {
    Labelled(b, s) && Ranked(b, s) && Backed(b, s, current, k) && Closed(b, s, current, k)
  }

  // --------------------------------------------------------------- following an edge

  /** The impact of a node is replaced by a stronger way only. */
  function RelaxBest(s: Search, w: seq<Edge>): (r: Search)
    requires w != []
    ensures r == s.(best := r.best, ways := r.ways)
  {
    var n := w[|w| - 1].to;
    if n !in s.best || ImpactBy(w).confidence > s.best[n].confidence then
      s.(best := s.best[n := ImpactBy(w)], ways := s.ways[n := w])
    else s
  }

  /** A node is labelled and queued unless it has a label as near. */
  function RelaxLabel(s: Search, w: seq<Edge>): (r: Search)
    requires w != []
    ensures r.best == s.best && r.ways == s.ways && r.expanded == s.expanded
  {
    var n := w[|w| - 1].to;
    if n in s.visited && s.visited[n] <= |w| then s
    else s.(visited := s.visited[n := |w|], walks := s.walks[n := w], queue := s.queue + [Entry(n, |w|, Strength(w))])
  }

  /** Follow one edge off the node being expanded. */
  function Relax(s: Search, x: string, e: Edge): Search
    requires x in s.walks
  {
    RelaxLabel(RelaxBest(s, s.walks[x] + [e]), s.walks[x] + [e])
  }

  /** What has been come upon so far comes before what the next edge gives. */
  lemma {:induction false} Frontier(b: Bounds, s: Search, current: string, e: Edge, w: seq<Edge>)
    requires s.expanded <= s.walks.Keys && Latest(b, s, current) && Past(b, s, current, Rank(b.edges, e), w)
    ensures Before(b, w, s.walks[current] + [e])
  {
    hide Eligible;
    if w != [] {
      var f := w[|w| - 1];
      BeforeExtends(b, s.walks[f.from], s.walks[current], f, e);
    }
  }

  /** Labels stay, and a way gives room to a stronger one only. */
  predicate Improves(s: Search, s': Search) {
    && s.walks.Keys <= s'.walks.Keys && (forall n | n in s.walks :: s'.walks[n] == s.walks[n])
    && s.ways.Keys <= s'.ways.Keys
    && (forall n | n in s.ways :: s'.ways[n] == s.ways[n] || Strength(s'.ways[n]) > Strength(s.ways[n]))
    && s.expanded == s'.expanded
  }

  lemma {:induction false} PastStays(b: Bounds, s: Search, s': Search, current: string, k: nat, m: nat,
                                     w: seq<Edge>)
    requires Improves(s, s') && Past(b, s, current, k, w) && k <= m
    ensures Past(b, s', current, m, w)
  {
  }

  lemma {:induction false} FollowedStays(b: Bounds, s: Search, s': Search, x: string, e: Edge)
    requires Improves(s, s') && x in s.walks && Followed(b, s, x, e)
    ensures Followed(b, s', x, e)
  {
    hide Strength, Before;
  }

  lemma {:induction false} ClosedStays(b: Bounds, s: Search, s': Search, current: string, k: nat)
    requires Labelled(b, s) && Improves(s, s') && Closed(b, s, current, k) && k < |b.edges|
    requires b.edges[k].from == current && Followed(b, s', current, b.edges[k])
    ensures Closed(b, s', current, k + 1)
  {
    hide Followed;
    forall e | Eligible(b, e) && e.from in s'.expanded && (e.from != current || Rank(b.edges, e) < k + 1)
      ensures Followed(b, s', e.from, e)
    {
      if e.from != current || Rank(b.edges, e) < k { FollowedStays(b, s, s', e.from, e); }
    }
  }

  /** The `k`-th edge leads off the node being expanded, is strong enough, and may be followed. */
  ghost predicate Follows(b: Bounds, s: Search, current: string, k: nat) {
    && Inv(b, s, current, k) && Latest(b, s, current) && |s.walks[current]| < b.most
    && k < |b.edges| && b.edges[k].from == current && Eligible(b, b.edges[k])
  }

  /** An edge listed before has nothing new to say. */
  lemma {:induction false} Repeated(b: Bounds, s: Search, current: string, k: nat)
    requires Follows(b, s, current, k) && Rank(b.edges, b.edges[k]) < k
    ensures Relax(s, current, b.edges[k]) == s && Inv(b, s, current, k + 1)
  {
    hide Ranked, Reaches, IsWalk, Past;
    assert Followed(b, s, current, b.edges[k]);
    assert Improves(s, s);
    forall w | Past(b, s, current, k, w) ensures Past(b, s, current, k + 1, w) {
      PastStays(b, s, s, current, k, k + 1, w);
    }
    ClosedStays(b, s, s, current, k);
  }

  /** The way just found is the impact now, or what stood before stands against it. */
  lemma {:induction false} NewWay(b: Bounds, s: Search, current: string, k: nat)
    requires Follows(b, s, current, k) && Rank(b.edges, b.edges[k]) == k
    ensures var e, w := b.edges[k], s.walks[current] + [b.edges[k]];
            var s' := RelaxBest(s, w);
            && Improves(s, s') && e.to in s'.ways && Stands(b, s'.ways[e.to], w)
            && (forall n | n in s'.ways :: (n == e.to && s'.ways[n] == w) || (n in s.ways && s'.ways[n] == s.ways[n]))
            && s'.ways.Keys == s'.best.Keys
            && (forall n | n in s'.ways && s'.ways[n] != [] :: s'.best[n] == ImpactBy(s'.ways[n]))
  {
    hide Ranked, Reaches, IsWalk, Past, Closed, Strength, Before;
    var e, w := b.edges[k], s.walks[current] + [b.edges[k]];
    if e.to in s.ways { Frontier(b, s, current, e, s.ways[e.to]); }
  }

  /** A node come upon before keeps its label, a new one gets the walk that found it. */
  lemma {:induction false} NewLabel(b: Bounds, s: Search, current: string, k: nat)
    requires Follows(b, s, current, k) && Rank(b.edges, b.edges[k]) == k
    ensures var e, w := b.edges[k], s.walks[current] + [b.edges[k]];
            var s' := RelaxLabel(s, w);
            && e.to in s'.walks && NotAfter(b, s'.walks[e.to], w)
            && (if e.to in s.walks then s' == s
                else s'.walks == s.walks[e.to := w] && s'.visited == s.visited[e.to := |w|]
                     && s'.queue == s.queue + [Entry(e.to, |w|, Strength(w))])
  {
    hide Ranked, Reaches, IsWalk, Past, Closed, Strength;
    var e := b.edges[k];
    if e.to in s.walks { Frontier(b, s, current, e, s.walks[e.to]); }
  }

  lemma {:induction false} QueuedMore(queue: seq<Entry>, q: Entry, n: string)
    ensures Queued(queue + [q], n) <==> Queued(queue, n) || q.id == n
  {
    var more := queue + [q];
    assert more[|queue|] == q;
    forall i | 0 <= i < |queue| ensures more[i] == queue[i] {}
  }

  lemma {:induction false} MoreLabelled(b: Bounds, s: Search, n: string, w: seq<Edge>)
    requires Labelled(b, s) && n !in s.walks && Reaches(b, w, n)
    ensures Labelled(b, s.(visited := s.visited[n := |w|], walks := s.walks[n := w],
                           queue := s.queue + [Entry(n, |w|, Strength(w))]))
  {
  }

  lemma {:induction false} MoreRanked(b: Bounds, s: Search, n: string, w: seq<Edge>)
    requires Labelled(b, s) && Ranked(b, s) && n !in s.walks && Reaches(b, w, n)
    requires forall m | m in s.walks :: Before(b, s.walks[m], w)
    ensures var s' := s.(visited := s.visited[n := |w|], walks := s.walks[n := w],
                         queue := s.queue + [Entry(n, |w|, Strength(w))]);
            Labelled(b, s') && Ranked(b, s')
  {
    hide Before, Reaches, Strength, Queued, Honest;
    MoreLabelled(b, s, n, w);
    var q := Entry(n, |w|, Strength(w));
    var s' := s.(visited := s.visited[n := |w|], walks := s.walks[n := w], queue := s.queue + [q]);
    forall i | 0 <= i < |s.queue|
      ensures s.queue[i].id in s.walks && s'.walks[s.queue[i].id] == s.walks[s.queue[i].id]
    {
      HonestIsLabelled(b, s, s.queue[i]);
    }
    forall m | m in s'.walks ensures m in s'.expanded || Queued(s'.queue, m) { QueuedMore(s.queue, q, m); }
  }

  lemma {:induction false} RelaxImproves(b: Bounds, s: Search, current: string, k: nat)
    requires Follows(b, s, current, k) && Rank(b.edges, b.edges[k]) == k
    ensures var s' := Relax(s, current, b.edges[k]);
            Improves(s, s') && Followed(b, s', current, b.edges[k])
  {
    hide Ranked, Reaches, IsWalk, Past, Closed, Strength, Before, NotAfter, Stands, RelaxBest, RelaxLabel;
    var w := s.walks[current] + [b.edges[k]];
    NewWay(b, s, current, k);
    NewLabel(b, s, current, k);
    RelaxApart(s, w);
  }

  /** The two halves of a relaxation touch different parts of the search. */
  lemma RelaxApart(s: Search, w: seq<Edge>)
    requires w != []
    ensures var s', s1, s2 := RelaxLabel(RelaxBest(s, w), w), RelaxBest(s, w), RelaxLabel(s, w);
            && s'.best == s1.best && s'.ways == s1.ways && s'.expanded == s.expanded
            && s'.walks == s2.walks && s'.visited == s2.visited && s'.queue == s2.queue
  {
  }

  lemma {:induction false} NewIsPast(b: Bounds, s: Search, current: string, k: nat)
    requires Follows(b, s, current, k) && Rank(b.edges, b.edges[k]) == k
    ensures Past(b, s, current, k + 1, s.walks[current] + [b.edges[k]])
  {
    hide Ranked, Backed, Closed, Honest, Reaches, Before, Rank, Eligible;
  }

  lemma {:induction false} RelaxBacks(b: Bounds, s: Search, current: string, k: nat)
    requires Follows(b, s, current, k) && Rank(b.edges, b.edges[k]) == k
    ensures Backed(b, Relax(s, current, b.edges[k]), current, k + 1)
  {
    hide Ranked, Reaches, IsWalk, Closed, Strength, Before, NotAfter, Stands, RelaxBest, RelaxLabel, Followed, Past;
    hide Improves, Rank, Eligible, ImpactBy, Honest;
    var e, w := b.edges[k], s.walks[current] + [b.edges[k]];
    var s' := Relax(s, current, e);
    NewWay(b, s, current, k);
    NewLabel(b, s, current, k);
    RelaxApart(s, w);
    RelaxImproves(b, s, current, k);
    NewIsPast(b, s, current, k);
    PastStays(b, s, s', current, k + 1, k + 1, w);
    forall n | n in s'.walks ensures Past(b, s', current, k + 1, s'.walks[n]) {
      if n in s.walks { PastStays(b, s, s', current, k, k + 1, s.walks[n]); }
    }
    forall n | n in s'.ways
      ensures s'.ways[n] != [] && EndOf(b, s'.ways[n]) == n && Past(b, s', current, k + 1, s'.ways[n])
    {
      if n in s.ways && s'.ways[n] == s.ways[n] { PastStays(b, s, s', current, k, k + 1, s.ways[n]); }
    }
  }

  lemma {:induction false} NewReaches(b: Bounds, s: Search, current: string, k: nat)
    requires Follows(b, s, current, k)
    ensures Reaches(b, s.walks[current] + [b.edges[k]], b.edges[k].to)
  {
    hide Ranked, Backed, Closed, Before, Rank;
    Extend(b, s.walks[current], b.edges[k]);
  }

  lemma {:induction false} RelaxRanks(b: Bounds, s: Search, current: string, k: nat)
    requires Follows(b, s, current, k) && Rank(b.edges, b.edges[k]) == k
    ensures var s' := Relax(s, current, b.edges[k]); Labelled(b, s') && Ranked(b, s') && Latest(b, s', current)
  {
    hide Closed, Strength, Before, NotAfter, Stands, RelaxBest, RelaxLabel, Followed, Past, IsWalk, Reaches;
    var e, w := b.edges[k], s.walks[current] + [b.edges[k]];
    NewLabel(b, s, current, k);
    RelaxApart(s, w);
    if e.to !in s.walks {
      NewReaches(b, s, current, k);
      forall m | m in s.walks ensures Before(b, s.walks[m], w) { Frontier(b, s, current, e, s.walks[m]); }
      MoreRanked(b, s, e.to, w);
    }
  }

  /** Following an edge keeps everything: labels are first walks so far, and impacts the best ways so far. */
  lemma {:induction false} RelaxKeeps(b: Bounds, s: Search, current: string, k: nat)
    requires Follows(b, s, current, k)
    ensures var s' := Relax(s, current, b.edges[k]); Inv(b, s', current, k + 1) && Latest(b, s', current)
  {
    hide Honest, Reaches, Ranked, Backed, Relax, Before, Followed, Improves;
    RankIsFirst(b.edges, k);
    if Rank(b.edges, b.edges[k]) < k {
      Repeated(b, s, current, k);
    } else {
      RelaxRanks(b, s, current, k);
      RelaxBacks(b, s, current, k);
      RelaxImproves(b, s, current, k);
      ClosedStays(b, s, Relax(s, current, b.edges[k]), current, k);
    }
  }

  /** An edge from elsewhere, or one too weak, is passed over. */
  lemma {:induction false} Skipped(b: Bounds, s: Search, current: string, k: nat)
    requires Inv(b, s, current, k) && k < |b.edges| && (b.edges[k].from != current || b.edges[k].confidence < b.least)
    ensures Inv(b, s, current, k + 1)
  {
    hide Ranked, Followed, Reaches;
    assert Improves(s, s);
    forall w | Past(b, s, current, k, w) ensures Past(b, s, current, k + 1, w) {
      PastStays(b, s, s, current, k, k + 1, w);
    }
  }

  // ------------------------------------------------------------- the whole search

  function Begin(b: Bounds): Search {
    Search([Entry(b.start, 0, 1.0)], map[], map[b.start := 0], map[b.start := []], map[], {})
  }

  function Pop(s: Search): Search
    requires s.queue != []
  {
    s.(queue := s.queue[1..], expanded := s.expanded + {s.queue[0].id})
  }

  lemma {:induction false} BeginHolds(b: Bounds)
    ensures Inv(b, Begin(b), b.start, |b.edges|)
  {
    assert Begin(b).queue[0].id == b.start;
  }

  lemma {:induction false} QueuedTail(queue: seq<Entry>, n: string)
    requires queue != [] && Queued(queue, n) && n != queue[0].id
    ensures Queued(queue[1..], n)
  {
    var i :| 0 <= i < |queue| && queue[i].id == n;
    assert queue[1..][i - 1].id == n;
  }

  lemma {:induction false} PopLabels(b: Bounds, s: Search)
    requires Labelled(b, s) && s.queue != []
    ensures Labelled(b, Pop(s)) && Honest(s, s.queue[0])
  {
    hide Reaches, Strength;
    var s' := Pop(s);
    assert Honest(s, s.queue[0]);
    forall i | 0 <= i < |s'.queue| ensures Honest(s', s'.queue[i]) { assert Honest(s, s.queue[i + 1]); }
  }

  /** What is popped comes after all that was expanded before it. */
  lemma {:induction false} PopRanks(b: Bounds, s: Search)
    requires Labelled(b, s) && Ranked(b, s) && s.queue != []
    ensures Labelled(b, Pop(s)) && Ranked(b, Pop(s)) && Latest(b, Pop(s), s.queue[0].id)
    ensures s.queue[0].id !in s.expanded
  {
    hide Reaches, Strength, Before;
    PopLabels(b, s);
    var s' := Pop(s);
    BeforeOneWay(b, s.walks[s.queue[0].id], s.walks[s.queue[0].id]);
    forall i | 0 <= i < |s'.queue| ensures s'.queue[i] == s.queue[i + 1] {}
    forall n | n in s'.walks ensures n in s'.expanded || Queued(s'.queue, n) {
      if n !in s'.expanded { QueuedTail(s.queue, n); }
    }
  }

  lemma {:induction false} PopKeeps(b: Bounds, s: Search, current: string)
    requires Inv(b, s, current, |b.edges|) && s.queue != []
    ensures Inv(b, Pop(s), s.queue[0].id, 0) && Latest(b, Pop(s), s.queue[0].id) && Honest(s, s.queue[0])
  {
    hide Ranked, Reaches, Strength, Latest, NotAfter, Stands;
    PopLabels(b, s);
    PopRanks(b, s);
    forall e | Eligible(b, e) && e.from in s.expanded ensures Followed(b, Pop(s), e.from, e) {
      assert Followed(b, s, e.from, e);
    }
  }

  /** At the depth limit there is nothing to follow. */
  lemma {:induction false} TooDeep(b: Bounds, s: Search, current: string)
    requires Inv(b, s, current, 0) && current in s.walks && |s.walks[current]| >= b.most
    ensures Inv(b, s, current, |b.edges|)
  {
    hide Ranked, Reaches, Strength, NotAfter, Stands;
  }

  /** After a pop is done with, it does not matter whose it was. */
  lemma {:induction false} Everywhere(b: Bounds, s: Search, x: string, y: string)
    requires Inv(b, s, x, |b.edges|)
    ensures Inv(b, s, y, |b.edges|)
  {
    hide Ranked, Reaches, Strength, NotAfter, Stands, Followed;
  }

  // ---------------------------------------------------------------- what it finds

  /** Where a walk is labelled no later than it, so is the walk with one more edge. */
  lemma {:induction false} NextIsLabelled(b: Bounds, s: Search, v: seq<Edge>, e: Edge)
    requires Inv(b, s, b.start, |b.edges|) && s.queue == [] && Eligible(b, e) && |v| < b.most
    requires e.from in s.walks && NotAfter(b, s.walks[e.from], v)
    ensures e.to in s.walks && NotAfter(b, s.walks[e.to], v + [e]) && e.to in s.best
  {
    hide Honest, Past, Stands, NotAfter, Rank, Strength, Reaches;
    NotAfterIsNoLonger(b, s.walks[e.from], v);
    assert Followed(b, s, e.from, e);
    BeforeExtends(b, s.walks[e.from], v, e, e);
    BeforeTransitive(b, s.walks[e.to], s.walks[e.from] + [e], v + [e]);
  }

  lemma {:induction false} ReachedIsLabelled(b: Bounds, s: Search, w: seq<Edge>)
    requires Inv(b, s, b.start, |b.edges|) && s.queue == []
    requires IsWalk(b, w) && |w| <= b.most
    ensures EndOf(b, w) in s.walks && NotAfter(b, s.walks[EndOf(b, w)], w)
    ensures w != [] ==> EndOf(b, w) in s.best
  {
    hide Ranked, Backed, Closed, Honest, Rank, Reaches, Earlier;
    if w == [] {
    } else {
      var n := |w| - 1;
      ReachedIsLabelled(b, s, w[..n]);
      NextIsLabelled(b, s, w[..n], w[n]);
      assert w[..n] + [w[n]] == w;
    }
  }

  /** At the end every label is the first walk to its node. */
  lemma {:induction false} LabelsAreFirst(b: Bounds, s: Search, n: string)
    requires Inv(b, s, b.start, |b.edges|) && s.queue == [] && n in s.walks
    ensures IsFirst(b, s.walks[n], n)
  {
    hide Backed, Closed, NotAfter, IsWalk;
    forall v | Reaches(b, v, n) ensures NotAfter(b, s.walks[n], v) { ReachedIsLabelled(b, s, v); }
  }

  lemma {:induction false} AllAreExpanded(b: Bounds, s: Search, n: string)
    requires Labelled(b, s) && Ranked(b, s) && s.queue == [] && n in s.walks
    ensures n in s.expanded
  {
  }

  lemma {:induction false} BestStands(b: Bounds, s: Search, v: seq<Edge>, n: string)
    requires Inv(b, s, b.start, |b.edges|) && s.queue == [] && IsWay(b, v, n)
    ensures n in s.ways && Stands(b, s.ways[n], v)
  {
    hide Ranked, Backed, Honest, Stands, NotAfter, IsWalk, Rank, Strength;
    var first, f := v[..|v| - 1], v[|v| - 1];
    assert v == first + [f];
    ReachedIsLabelled(b, s, first);
    LabelsAreFirst(b, s, f.from);
    FirstIsUnique(b, first, s.walks[f.from], f.from);
    AllAreExpanded(b, s, f.from);
    assert Followed(b, s, f.from, f);
  }

  /** At the end every impact comes by the best way to its node. */
  lemma {:induction false} WaysAreBest(b: Bounds, s: Search, n: string)
    requires Inv(b, s, b.start, |b.edges|) && s.queue == [] && n in s.best
    ensures n in s.ways && IsBest(b, s.ways[n], n) && s.ways[n] != [] && s.best[n] == ImpactBy(s.ways[n])
  {
    hide Ranked, Closed, Labelled, Stands, NotAfter, IsFirst, Strength, Rank;
    var w := s.ways[n];
    var e := w[|w| - 1];
    LabelsAreFirst(b, s, e.from);
    assert w[..|w| - 1] == s.walks[e.from];
    forall v | IsWay(b, v, n) ensures Stands(b, w, v) { BestStands(b, s, v, n); }
  }

  lemma {:induction false} SearchFinds(b: Bounds, s: Search)
    requires Inv(b, s, b.start, |b.edges|) && s.queue == []
    ensures Found(b, s.best)
  {
    hide Labelled, Ranked, Backed, Closed, NotAfter, IsWalk;
    forall n ensures n in s.best <==> Reachable(b, n) {
      if n in s.best {
        WaysAreBest(b, s, n);
        WayReaches(b, s.ways[n], n);
      }
      if w :| w != [] && Reaches(b, w, n) { ReachedIsLabelled(b, s, w); }
    }
    forall n | n in s.best ensures exists w :: IsBest(b, w, n) && s.best[n] == ImpactBy(w) { WaysAreBest(b, s, n); }
  }
}
