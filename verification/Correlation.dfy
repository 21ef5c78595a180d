/** Temporal correlation of one action's requests with the interface changes that follow them. */
module Correlation {
  import opened Common
  import Text

  const U64_MAX := 0xFFFF_FFFF_FFFF_FFFF
  const MAX_TAIL := 10000
  const MAX_SIGNALS := 4096
  const MAX_RESPONSES := 64

  datatype Kind = Network | DomMutation | Layout | Route | Console | Performance

  datatype Signal = Signal(id: string, kind: Kind, observed: nat, route: Option<string>)

  datatype Window = Window(actionId: string, started: nat, completed: nat, route: Option<string>)

  datatype Policy = Policy(tail: nat, maxSignals: nat, maxResponses: nat)

  datatype Link = Link(requestId: string, responseIds: seq<string>, confidence: real)

  datatype Trace = Trace(actionId: string, links: seq<Link>, observedCount: nat, truncated: bool)

  datatype Refusal = InvalidWindow | InvalidPolicy

  predicate IsResponse(k: Kind) { k.DomMutation? || k.Layout? || k.Route? }

  predicate WindowOk(w: Window) { w.actionId != "" && w.started <= w.completed }

  predicate PolicyOk(p: Policy) {
    0 < p.maxSignals <= MAX_SIGNALS && 0 < p.maxResponses <= MAX_RESPONSES && p.tail <= MAX_TAIL
  }

  function EndOf(w: Window, p: Policy): nat {
    if w.completed + p.tail > U64_MAX then U64_MAX else w.completed + p.tail
  }

  predicate InWindow(w: Window, p: Policy, s: Signal) {
    w.started <= s.observed <= EndOf(w, p) && (w.route.Some? ==> s.route == w.route)
  }

  // ------------------------------------------------------------------------ order

  predicate NotAfter(a: Signal, b: Signal) {
    a.observed < b.observed || (a.observed == b.observed && Text.AtMost(a.id, b.id))
  }

  predicate InOrder(s: seq<Signal>) { forall i, j | 0 <= i < j < |s| :: NotAfter(s[i], s[j]) }

  /** No two signals tie on time and id. */
  predicate Untied(s: seq<Signal>) {
    forall i, j | 0 <= i < j < |s| :: !(s[i].observed == s[j].observed && s[i].id == s[j].id)
  }

  lemma NotAfterTotal(a: Signal, b: Signal)
    ensures NotAfter(a, b) || NotAfter(b, a)
  {
    Text.AtMostTotal(a.id, b.id);
  }

  lemma NotAfterTransitive(a: Signal, b: Signal, c: Signal)
    requires NotAfter(a, b) && NotAfter(b, c)
    ensures NotAfter(a, c)
  {
    if a.observed == b.observed == c.observed { Text.AtMostTransitive(a.id, b.id, c.id); }
  }

  /** Insert after everything that ties, as a stable sort does. */
  function Place(s: seq<Signal>, x: Signal): (r: seq<Signal>)
    ensures multiset(r) == multiset(s) + multiset{x}
  {
    if s == [] then [x]
    else if NotAfter(s[|s| - 1], x) then s + [x]
    else
      assert s == s[..|s| - 1] + [s[|s| - 1]];
      Place(s[..|s| - 1], x) + [s[|s| - 1]]
  }

  lemma PlacedStaysBefore(s: seq<Signal>, x: Signal, y: Signal)
    requires InOrder(s) && s != [] && NotAfter(x, s[|s| - 1]) && y in Place(s[..|s| - 1], x)
    ensures NotAfter(y, s[|s| - 1])
  {
    hide NotAfter;
    assert y in multiset(Place(s[..|s| - 1], x));
    if y != x {
      assert y in multiset(s[..|s| - 1]);
      var k :| 0 <= k < |s| - 1 && s[..|s| - 1][k] == y;
      assert s[k] == y;
    }
  }

  lemma {:induction false} PlaceKeepsOrder(s: seq<Signal>, x: Signal)
    requires InOrder(s)
    ensures InOrder(Place(s, x))
  {
    hide NotAfter;
    if s == [] {
    } else if NotAfter(s[|s| - 1], x) {
      forall i | 0 <= i < |s| - 1 ensures NotAfter(s[i], x) { NotAfterTransitive(s[i], s[|s| - 1], x); }
    } else {
      var last := s[|s| - 1];
      NotAfterTotal(last, x);
      PlaceKeepsOrder(s[..|s| - 1], x);
      forall y | y in Place(s[..|s| - 1], x) ensures NotAfter(y, last) { PlacedStaysBefore(s, x, y); }
    }
  }

  /** In order and untied, the last signal is fixed by which signals there are. */
  lemma {:induction false} LastAgrees(a: seq<Signal>, b: seq<Signal>)
    requires InOrder(a) && InOrder(b) && multiset(a) == multiset(b) && Untied(a) && a != [] && |a| == |b|
    ensures a[|a| - 1] == b[|b| - 1]
  {
    var n := |a| - 1;
    assert a[n] in multiset(a) && b[n] in multiset(b);
    assert b[n] in a && a[n] in b;
    var i :| 0 <= i < |a| && a[i] == b[n];
    var j :| 0 <= j < |b| && b[j] == a[n];
    if i < n && j < n {
      assert NotAfter(b[n], a[n]) && NotAfter(a[n], b[n]);
      Text.AtMostAntisymmetric(a[n].id, b[n].id);
    }
  }

  lemma DropLast(a: seq<Signal>)
    requires a != []
    ensures a == a[..|a| - 1] + [a[|a| - 1]]
    ensures multiset(a[..|a| - 1]) == multiset(a) - multiset{a[|a| - 1]}
    ensures InOrder(a) ==> InOrder(a[..|a| - 1])
    ensures Untied(a) ==> Untied(a[..|a| - 1])
  {
    assert a == a[..|a| - 1] + [a[|a| - 1]];
  }

  lemma SameSize(a: seq<Signal>, b: seq<Signal>)
    requires multiset(a) == multiset(b)
    ensures |a| == |b|
  {
    assert |a| == |multiset(a)| == |multiset(b)| == |b|;
  }

  lemma {:induction false} OneOrder(a: seq<Signal>, b: seq<Signal>)
    requires InOrder(a) && InOrder(b) && multiset(a) == multiset(b) && Untied(a)
    ensures a == b
  {
    SameSize(a, b);
    if a != [] {
      var a', b' := a[..|a| - 1], b[..|b| - 1];
      LastAgrees(a, b);
      DropLast(a);
      DropLast(b);
      OneOrder(a', b');
    }
  }

  function Filter(w: Window, p: Policy, s: seq<Signal>): seq<Signal> {
    if s == [] then []
    else Filter(w, p, s[..|s| - 1]) + (if InWindow(w, p, s[|s| - 1]) then [s[|s| - 1]] else [])
  }

  function Sort(s: seq<Signal>): (r: seq<Signal>)
    ensures multiset(r) == multiset(s)
  {
    if s == [] then [] else (assert s == s[..|s| - 1] + [s[|s| - 1]]; Place(Sort(s[..|s| - 1]), s[|s| - 1]))
  }

  lemma {:induction false} SortOrders(s: seq<Signal>)
    ensures InOrder(Sort(s))
  {
    if s != [] {
      SortOrders(s[..|s| - 1]);
      PlaceKeepsOrder(Sort(s[..|s| - 1]), s[|s| - 1]);
    }
  }

  /** What is looked at: the signals of the window in order, up to the limit. */
  function Observed(w: Window, p: Policy, s: seq<Signal>): seq<Signal> {
    var all := Sort(Filter(w, p, s));
    if |all| > p.maxSignals then all[..p.maxSignals] else all
  }

  /** The ids of the first `limit` responses. */
  function Responses(s: seq<Signal>, limit: nat): seq<string> {
    if s == [] || limit == 0 then []
    else if IsResponse(s[0].kind) then [s[0].id] + Responses(s[1..], limit - 1)
    else Responses(s[1..], limit)
  }

  function Confidence(w: Window): real { if w.route.Some? then 0.65 else 0.55 }

  /** One link per request some response follows. */
  function Links(w: Window, p: Policy, s: seq<Signal>): seq<Link> {
    if s == [] then []
    else
      var after := Responses(s[1..], p.maxResponses);
      (if s[0].kind.Network? && after != [] then [Link(s[0].id, after, Confidence(w))] else []) + Links(w, p, s[1..])
  }

  /** `correlate_action_request_ui` */
  method Correlate(w: Window, p: Policy, signals: seq<Signal>) returns (r: Result<Trace, Refusal>)
    ensures r == if !WindowOk(w) then Err(InvalidWindow) else if !PolicyOk(p) then Err(InvalidPolicy)
                 else Ok(Trace(w.actionId, Links(w, p, Observed(w, p, signals)), |Observed(w, p, signals)|,
                               |Filter(w, p, signals)| > p.maxSignals))
  {
    hide Links, Sort, Filter;
    if w.actionId == "" || w.completed < w.started { return Err(InvalidWindow); }
    if p.maxSignals == 0 || p.maxSignals > MAX_SIGNALS || p.maxResponses == 0 || p.maxResponses > MAX_RESPONSES
       || p.tail > MAX_TAIL {
      return Err(InvalidPolicy);
    }
    var eligible := Eligible(w, p, signals);
    assert |eligible| == |multiset(eligible)| == |multiset(Filter(w, p, signals))|;
    var truncated := |eligible| > p.maxSignals;
    if truncated { eligible := eligible[..p.maxSignals]; }
    var links := LinkRequests(w, p, eligible);
    return Ok(Trace(w.actionId, links, |eligible|, truncated));
  }

  /** Keep the signals of the window, then sort them. */
  method Eligible(w: Window, p: Policy, signals: seq<Signal>) returns (eligible: seq<Signal>)
    ensures eligible == Sort(Filter(w, p, signals))
  {
    var kept := InsideWindow(w, p, signals);
    eligible := InTimeOrder(kept);
  }

  method InsideWindow(w: Window, p: Policy, signals: seq<Signal>) returns (kept: seq<Signal>)
    ensures kept == Filter(w, p, signals)
  {
    kept := [];
    for i := 0 to |signals|
      invariant kept == Filter(w, p, signals[..i])
    {
      assert signals[..i + 1][..i] == signals[..i];
      if InWindow(w, p, signals[i]) { kept := kept + [signals[i]]; }
    }
    assert signals[..|signals|] == signals;
  }

  method InTimeOrder(kept: seq<Signal>) returns (sorted: seq<Signal>)
    ensures sorted == Sort(kept)
  {
    sorted := [];
    for i := 0 to |kept|
      invariant sorted == Sort(kept[..i])
    {
      assert kept[..i + 1][..i] == kept[..i];
      sorted := Place(sorted, kept[i]);
    }
    assert kept[..|kept|] == kept;
  }

  method LinkRequests(w: Window, p: Policy, eligible: seq<Signal>) returns (links: seq<Link>)
    ensures links == Links(w, p, eligible)
  {
    links := [];
    for i := 0 to |eligible|
      invariant links + Links(w, p, eligible[i..]) == Links(w, p, eligible)
    {
      assert eligible[i..][1..] == eligible[i + 1..];
      if eligible[i].kind.Network? {
        var ids := ResponsesAfter(eligible, i + 1, p.maxResponses);
        if ids != [] { links := links + [Link(eligible[i].id, ids, Confidence(w))]; }
      }
    }
  }

  method ResponsesAfter(s: seq<Signal>, from: nat, limit: nat) returns (ids: seq<string>)
    requires from <= |s|
    ensures ids == Responses(s[from..], limit)
  {
    ids := [];
    var k := from;
    while k < |s| && |ids| < limit
      invariant from <= k <= |s| && |ids| <= limit
      invariant ids + Responses(s[k..], limit - |ids|) == Responses(s[from..], limit)
    {
      assert s[k..][1..] == s[k + 1..];
      if IsResponse(s[k].kind) { ids := ids + [s[k].id]; }
      k := k + 1;
    }
  }

  // ------------------------------------------------------------------- properties

  lemma {:induction false} FilterIsPermuted(w: Window, p: Policy, s: seq<Signal>, x: Signal)
    ensures multiset(Filter(w, p, s))[x] == if InWindow(w, p, x) then multiset(s)[x] else 0
  {
    if s != [] {
      FilterIsPermuted(w, p, s[..|s| - 1], x);
      assert s == s[..|s| - 1] + [s[|s| - 1]];
    }
  }

  /** The trace depends on which signals there were, not on the order they were handed over in. */
  lemma OrderDoesNotMatter(w: Window, p: Policy, s: seq<Signal>, s': seq<Signal>)
    requires multiset(s) == multiset(s') && Untied(Sort(Filter(w, p, s)))
    ensures Observed(w, p, s) == Observed(w, p, s') && |Filter(w, p, s)| == |Filter(w, p, s')|
  {
    var a, b := Filter(w, p, s), Filter(w, p, s');
    forall x: Signal ensures multiset(a)[x] == multiset(b)[x] {
      FilterIsPermuted(w, p, s, x);
      FilterIsPermuted(w, p, s', x);
    }
    assert multiset(a) == multiset(b);
    assert |a| == |multiset(a)| == |multiset(b)| == |b|;
    SortOrders(a);
    SortOrders(b);
    OneOrder(Sort(a), Sort(b));
  }

  /** A change of the interface: not a request, nor what the console or a performance entry reports. */
  predicate Answers(k: Kind) { !k.Network? && !k.Console? && !k.Performance? }

  predicate Increasing(ks: seq<nat>) { forall i, j | 0 <= i < j < |ks| :: ks[i] < ks[j] }

  /** The ids are those of the responses at these places: the first `limit` of all from `from` on, in order. */
  predicate AreFirst(s: seq<Signal>, from: nat, limit: nat, ks: seq<nat>, ids: seq<string>) {
    && |ids| == |ks| <= limit && Increasing(ks)
    && (forall j | 0 <= j < |ks| :: from <= ks[j] < |s| && Answers(s[ks[j]].kind) && ids[j] == s[ks[j]].id)
    && (forall k | from <= k < |s| && Answers(s[k].kind) ::
          k in ks || (|ks| == limit && forall j | j in ks :: j < k))
  }

  lemma {:induction false} FirstGoesOn(s: seq<Signal>, from: nat, limit: nat, ks: seq<nat>, ids: seq<string>)
    requires from < |s| && Answers(s[from].kind) && AreFirst(s, from + 1, limit, ks, ids)
    ensures AreFirst(s, from, limit + 1, [from] + ks, [s[from].id] + ids)
  {
    hide Answers;
    var more, names := [from] + ks, [s[from].id] + ids;
    forall i, j | 0 <= i < j < |more| ensures more[i] < more[j] { assert more[j] == ks[j - 1]; }
    forall j | 0 <= j < |more|
      ensures from <= more[j] < |s| && Answers(s[more[j]].kind) && names[j] == s[more[j]].id
    {
      if j > 0 { assert more[j] == ks[j - 1] && names[j] == ids[j - 1]; }
    }
    forall k | from <= k < |s| && Answers(s[k].kind)
      ensures k in more || (|more| == limit + 1 && forall j | j in more :: j < k)
    {
      if k == from { assert more[0] == k; }
    }
  }

  lemma {:induction false} ResponsesAreFirst(s: seq<Signal>, from: nat, limit: nat) returns (ks: seq<nat>)
    requires from <= |s|
    ensures AreFirst(s, from, limit, ks, Responses(s[from..], limit))
    decreases |s| - from
  {
    if from == |s| || limit == 0 {
      ks := [];
    } else {
      assert s[from..][1..] == s[from + 1..];
      if Answers(s[from].kind) {
        ks := ResponsesAreFirst(s, from + 1, limit - 1);
        FirstGoesOn(s, from, limit - 1, ks, Responses(s[from + 1..], limit - 1));
        ks := [from] + ks;
      } else {
        ks := ResponsesAreFirst(s, from + 1, limit);
      }
    }
  }

  /** Some response comes after the `i`-th signal. */
  predicate Answered(s: seq<Signal>, i: nat) { exists k | i < k < |s| :: Answers(s[k].kind) }

  ghost predicate NamesFirst(s: seq<Signal>, from: nat, limit: nat, ids: seq<string>) {
    exists ks :: AreFirst(s, from, limit, ks, ids)
  }

  /** The link is of the request at `i`, to the first of the responses after it, up to the limit. */
  ghost predicate IsLinkOf(w: Window, s: seq<Signal>, p: Policy, l: Link, i: nat) {
    && i < |s| && s[i].kind.Network? && l.requestId == s[i].id && l.responseIds != []
    && l.confidence == (if w.route == None then 0.55 else 0.65)
    && NamesFirst(s, i + 1, p.maxResponses, l.responseIds)
  }

  /** The links are of the requests at these places, in order, and these are all that have a response. */
  ghost predicate AreLinksOf(w: Window, s: seq<Signal>, p: Policy, from: nat, at: seq<nat>, links: seq<Link>) {
    && |links| == |at| && Increasing(at)
    && (forall j | 0 <= j < |at| :: from <= at[j] && IsLinkOf(w, s, p, links[j], at[j]))
    && (forall i | from <= i < |s| && s[i].kind.Network? && Answered(s, i) :: i in at)
  }

  lemma {:induction false} FirstLink(w: Window, p: Policy, s: seq<Signal>, n: nat)
    requires PolicyOk(p) && n < |s| && s[n].kind.Network?
    ensures var after := Responses(s[n + 1..], p.maxResponses);
            && (after != [] <==> Answered(s, n))
            && (after != [] ==> IsLinkOf(w, s, p, Link(s[n].id, after, Confidence(w)), n))
  {
    var ks := ResponsesAreFirst(s, n + 1, p.maxResponses);
    if ks != [] { assert Answers(s[ks[0]].kind); }
  }

  lemma {:induction false} OneLinkMore(w: Window, s: seq<Signal>, p: Policy, n: nat, at: seq<nat>,
                                       links: seq<Link>, l: Link)
    requires AreLinksOf(w, s, p, n + 1, at, links) && IsLinkOf(w, s, p, l, n)
    ensures AreLinksOf(w, s, p, n, [n] + at, [l] + links)
  {
    hide IsLinkOf, Answered;
    var more := [n] + at;
    forall i | n <= i < |s| && s[i].kind.Network? && Answered(s, i) ensures i in more {
      if i == n { assert more[0] == n; }
    }
  }

  lemma {:induction false} NoLinkMore(w: Window, s: seq<Signal>, p: Policy, n: nat, at: seq<nat>, links: seq<Link>)
    requires AreLinksOf(w, s, p, n + 1, at, links) && n < |s| && !(s[n].kind.Network? && Answered(s, n))
    ensures AreLinksOf(w, s, p, n, at, links)
  {
    hide IsLinkOf, Answered;
  }

  lemma {:induction false} LinksAreOfRequests(w: Window, p: Policy, s: seq<Signal>, n: nat) returns (at: seq<nat>)
    requires PolicyOk(p) && n <= |s|
    ensures AreLinksOf(w, s, p, n, at, Links(w, p, s[n..]))
    decreases |s| - n
  {
    hide IsLinkOf, Answered;
    if n == |s| {
      at := [];
    } else {
      hide AreLinksOf;
      assert s[n..][1..] == s[n + 1..];
      at := LinksAreOfRequests(w, p, s, n + 1);
      var after := Responses(s[n + 1..], p.maxResponses);
      if s[n].kind.Network? { FirstLink(w, p, s, n); }
      if s[n].kind.Network? && after != [] {
        OneLinkMore(w, s, p, n, at, Links(w, p, s[n + 1..]), Link(s[n].id, after, Confidence(w)));
        at := [n] + at;
      } else {
        NoLinkMore(w, s, p, n, at, Links(w, p, s[n + 1..]));
        assert Links(w, p, s[n..]) == Links(w, p, s[n + 1..]);
      }
    }
  }

  lemma {:induction false} FilteredInWindow(w: Window, p: Policy, s: seq<Signal>, x: Signal)
    requires x in Filter(w, p, s)
    ensures InWindow(w, p, x) && x in s
  {
    if !(InWindow(w, p, s[|s| - 1]) && x == s[|s| - 1]) { FilteredInWindow(w, p, s[..|s| - 1], x); }
  }

  /** One signal is no later than the other, by time and then by id. */
  predicate NoLater(a: Signal, b: Signal) {
    a.observed <= b.observed && (a.observed == b.observed ==> Text.AtMost(a.id, b.id))
  }

  /** Seen in the window or in the tail after it, and on the route of the window where that has one. */
  predicate IsEligible(w: Window, p: Policy, x: Signal) {
    && w.started <= x.observed <= U64_MAX && x.observed <= w.completed + p.tail
    && w.route in {None, x.route}
  }

  /**
   * What is looked at, in order, and what is left out make up the signals of
   * the window; something is left out only once the limit is reached, and
   * then it comes no earlier than anything looked at.
   */
  lemma ObservedIsEarliest(w: Window, p: Policy, signals: seq<Signal>) returns (leftOut: seq<Signal>)
    ensures var s := Observed(w, p, signals);
            && (forall x :: multiset(s + leftOut)[x] == if IsEligible(w, p, x) then multiset(signals)[x] else 0)
            && (forall i, j | 0 <= i < j < |s| :: NoLater(s[i], s[j]))
            && (leftOut != [] ==> |s| == p.maxSignals)
            && (leftOut != [] <==> |Filter(w, p, signals)| > p.maxSignals)
            && (forall a, b | a in s && b in leftOut :: NoLater(a, b))
  {
    hide Filter, Sort, InWindow, IsEligible;
    var kept := Filter(w, p, signals);
    var all := Sort(kept);
    SortOrders(kept);
    leftOut := all[|Observed(w, p, signals)|..];
    assert all == Observed(w, p, signals) + leftOut;
    forall x: Signal ensures multiset(all)[x] == if IsEligible(w, p, x) then multiset(signals)[x] else 0 {
      FilterIsPermuted(w, p, signals, x);
      EligibleIsInWindow(w, p, x);
    }
  }

  lemma EligibleIsInWindow(w: Window, p: Policy, x: Signal)
    ensures IsEligible(w, p, x) <==> InWindow(w, p, x)
  {
  }

  /**
   * The signals looked at are of the window and in order, and the links of a
   * trace are of exactly the requests among them that some response follows,
   * in order, each to the first responses after it up to the limit.
   */
  lemma TraceIsCausal(w: Window, p: Policy, signals: seq<Signal>) returns (at: seq<nat>)
    requires PolicyOk(p)
    ensures var s := Observed(w, p, signals);
            && InOrder(s) && |s| <= p.maxSignals && (forall x | x in s :: x in signals && InWindow(w, p, x))
            && AreLinksOf(w, s, p, 0, at, Links(w, p, s))
  {
    hide AreLinksOf;
    var s := Observed(w, p, signals);
    var kept := Filter(w, p, signals);
    SortOrders(kept);
    forall x | x in s ensures x in signals && InWindow(w, p, x) {
      assert x in Sort(kept) && x in multiset(Sort(kept)) && x in multiset(kept);
      FilteredInWindow(w, p, signals, x);
    }
    assert s[0..] == s;
    at := LinksAreOfRequests(w, p, s, 0);
  }
}
