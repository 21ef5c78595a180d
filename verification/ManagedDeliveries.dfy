/**
 * How often an action reaches the executor when the live queue hands out what
 * it was given once, and exactly when it does so without a permit.
 */
module ManagedDeliveries {
  import opened Common
  import opened ManagedPayload
  import opened Managed
  import opened ManagedAuthority
  import opened ManagedFacts
  import opened ManagedConfirm
  import opened ManagedNarrative
  import opened ManagedTheorems
  import J = Journal

  // -------------------------------------------------------------------- counting

  function CountId(q: seq<QueuedAction>, a: Uuid): nat {
    if q == [] then 0 else (if q[0].id == a then 1 else 0) + CountId(q[1..], a)
  }

  lemma {:induction false} CountIdConcat(p: seq<QueuedAction>, q: seq<QueuedAction>, a: Uuid)
    ensures CountId(p + q, a) == CountId(p, a) + CountId(q, a)
  {
    if p == [] {
      assert p + q == q;
    } else {
      assert (p + q)[1..] == p[1..] + q;
      CountIdConcat(p[1..], q, a);
    }
  }

  lemma CountIdOne(x: QueuedAction, a: Uuid)
    ensures CountId([x], a) == if x.id == a then 1 else 0
  {
    assert [x][1..] == [];
  }

  /** What is taken off the queue and what stays make up what there was. */
  lemma {:induction false} TakingCounts(q: seq<QueuedAction>, session: Uuid, limit: nat, a: Uuid)
    ensures CountId(TakenOf(q, session, limit), a) + CountId(RemainderOf(q, session, limit), a) == CountId(q, a)
  {
    if q == [] || limit == 0 {
    } else if q[0].session == session {
      TakingCounts(q[1..], session, limit - 1, a);
      CountIdConcat([q[0]], TakenOf(q[1..], session, limit - 1), a);
      CountIdOne(q[0], a);
    } else {
      TakingCounts(q[1..], session, limit, a);
      CountIdConcat([q[0]], RemainderOf(q[1..], session, limit), a);
      CountIdOne(q[0], a);
    }
  }

  lemma {:induction false} ClearingCounts(q: seq<QueuedAction>, session: Uuid, a: Uuid)
    ensures CountId(WithoutSession(q, session), a) <= CountId(q, a)
  {
    if q != [] {
      ClearingCounts(q[1..], session, a);
      assert [] + WithoutSession(q[1..], session) == WithoutSession(q[1..], session);
      CountIdConcat([q[0]], WithoutSession(q[1..], session), a);
      CountIdOne(q[0], a);
    }
  }

  lemma AllDeliveriesAppend(log: seq<Event>, e: Event, a: Uuid)
    ensures AllDeliveries(log + [e], a) == AllDeliveries(log, a) + (if e.Delivered? && e.action.id == a then 1 else 0)
  {
    assert (log + [e])[..|log|] == log;
  }

  lemma {:induction false} AllDeliveriesUnpermitted(log: seq<Event>, q: seq<QueuedAction>, a: Uuid)
    ensures AllDeliveries(log + Unpermitted(q), a) == AllDeliveries(log, a) + CountId(q, a)
  {
    hide Unpermitted, AllDeliveries;
    LastUnpermitted(log, q);
    if q != [] {
      var n := |q| - 1;
      AllDeliveriesUnpermitted(log, q[..n], a);
      AllDeliveriesAppend(log + Unpermitted(q[..n]), Delivered(q[n], false), a);
      assert q == q[..n] + [q[n]];
      CountIdConcat(q[..n], [q[n]], a);
      CountIdOne(q[n], a);
    }
  }

  lemma DroppingCounts(q: seq<QueuedAction>, i: nat, a: Uuid)
    requires i < |q|
    ensures CountId(q[..i] + q[i + 1..], a) <= CountId(q, a)
  {
    assert q == q[..i] + ([q[i]] + q[i + 1..]);
    CountIdConcat(q[..i], q[i + 1..], a);
    CountIdConcat([q[i]], q[i + 1..], a);
    CountIdConcat(q[..i], [q[i]] + q[i + 1..], a);
  }

  // ------------------------------------------------------------ one copy, one place

  /** Where the one copy of an action may be. */
  datatype Spot = Never | InQueue | InBatch(task: nat) | Handed

  predicate Holding(s: Sys, a: Uuid, spot: Spot, t: nat)
    requires t in s.tasks.m
  {
    CountId(Remaining(s.tasks.m[t]), a) <= if spot == InBatch(t) then 1 else 0
  }

  /** There is at most one copy, and only there; before the action is sent there is none. */
  ghost predicate SingleAt(s: Sys, a: Uuid, spot: Spot) {
    && CountId(s.queue, a) <= (if spot == InQueue then 1 else 0)
    && AllDeliveries(s.log, a) <= (if spot == Handed then 1 else 0)
    && (forall t | t in s.tasks.m :: Holding(s, a, spot, t))
    && (Unsent(s, a) ==> spot == Never)
  }

  lemma {:induction false} TailCounts(q: seq<QueuedAction>, a: Uuid)
    requires q != []
    ensures CountId(q, a) == (if q[0].id == a then 1 else 0) + CountId(q[1..], a)
  {
  }

  /** Nothing is said, sent or queued; the task holds the same or less. */
  lemma {:induction false} QuietSpot(s: Sys, s': Sys, tid: nat, a: Uuid, spot: Spot)
    requires SingleAt(s, a, spot) && s'.sent == s.sent && CountId(s'.queue, a) <= CountId(s.queue, a)
    requires AllDeliveries(s'.log, a) == AllDeliveries(s.log, a)
    requires forall t | t in s'.tasks.m && t != tid :: t in s.tasks.m && s'.tasks.m[t] == s.tasks.m[t]
    requires CountId(LeftOf(s', tid), a) <= CountId(LeftOf(s, tid), a)
    ensures SingleAt(s', a, spot)
  {
    forall t | t in s'.tasks.m ensures Holding(s', a, spot, t) {
      if t in s.tasks.m { assert Holding(s, a, spot, t); }
    }
  }

  /** The head of what the task has taken is delivered. */
  lemma {:induction false} HandSpot(s: Sys, s': Sys, tid: nat, a: Uuid, spot: Spot) returns (spot': Spot)
    requires SingleAt(s, a, spot) && tid in s.tasks.m && Remaining(s.tasks.m[tid]) != []
    requires s'.sent == s.sent && s'.queue == s.queue && LeftOf(s', tid) == Remaining(s.tasks.m[tid])[1..]
    requires |s'.log| == |s.log| + 1 && s'.log[..|s.log|] == s.log
    requires s'.log[|s.log|].Delivered? && s'.log[|s.log|].action == Remaining(s.tasks.m[tid])[0]
    requires forall t | t in s'.tasks.m && t != tid :: t in s.tasks.m && s'.tasks.m[t] == s.tasks.m[t]
    ensures SingleAt(s', a, spot')
  {
    var x := Remaining(s.tasks.m[tid])[0];
    assert s'.log == s.log + [s'.log[|s.log|]];
    AllDeliveriesAppend(s.log, s'.log[|s.log|], a);
    TailCounts(Remaining(s.tasks.m[tid]), a);
    assert Holding(s, a, spot, tid);
    spot' := if x.id == a then Handed else spot;
    forall t | t in s'.tasks.m ensures Holding(s', a, spot', t) {
      if t in s.tasks.m { assert Holding(s, a, spot, t); }
    }
  }

  lemma {:induction false} SendSpot(s: Sys, s': Sys, tid: nat, x: QueuedAction, a: Uuid, spot: Spot)
    returns (spot': Spot)
    requires SingleAt(s, a, spot) && (x.id == a ==> Unsent(s, a))
    requires s'.log == s.log && s'.sent == s.sent + [x] && s'.queue == s.queue + [x] && LeftOf(s', tid) == []
    requires forall t | t in s'.tasks.m && t != tid :: t in s.tasks.m && s'.tasks.m[t] == s.tasks.m[t]
    ensures SingleAt(s', a, spot')
  {
    CountIdConcat(s.queue, [x], a);
    CountIdOne(x, a);
    assert x in s'.sent && forall y | y in s.sent :: y in s'.sent;
    spot' := if x.id == a then InQueue else spot;
    forall t | t in s'.tasks.m ensures Holding(s', a, spot', t) {
      if t in s.tasks.m { assert Holding(s, a, spot, t); }
    }
  }

  lemma {:induction false} AdvanceSpot(s: Sys, s': Sys, tid: nat, a: Uuid, spot: Spot) returns (spot': Spot)
    requires SingleAt(s, a, spot) && Narrates(s, s', tid)
    requires var t := s.tasks.m[tid]; t.Bare? && t.pc.ConfirmEnqueue? ==> Unsent(s, t.pc.plan.action.id)
    ensures SingleAt(s', a, spot')
  {
    var t := s.tasks.m[tid];
    var taken, left := Remaining(t), LeftOf(s', tid);
    if taken != [] { TailCounts(taken, a); }
    if |s'.log| == |s.log| + 1 && s'.log[|s.log|].Delivered? {
      spot' := HandSpot(s, s', tid, a, spot);
    } else if t.Bare? && t.pc.ConfirmEnqueue? && s'.sent != s.sent {
      spot' := SendSpot(s, s', tid, t.pc.plan.action, a, spot);
    } else {
      spot' := spot;
      if t.Bare? && t.pc.ReleaseQueue? { ClearingCounts(s.queue, t.pc.session, a); }
      if s'.log != s.log {
        assert s'.log == s.log + [s'.log[|s.log|]];
        AllDeliveriesAppend(s.log, s'.log[|s.log|], a);
      }
      QuietSpot(s, s', tid, a, spot);
    }
  }

  /** An executor takes actions off the queue. */
  lemma {:induction false} TakeSpot(codec: Codec, s: Sys, session: Uuid, a: Uuid, spot: Spot) returns (spot': Spot)
    requires GateInv(s) && SingleAt(s, a, spot)
    ensures SingleAt(Step(codec, s, StartArm(session)), a, spot')
  {
    var s' := Step(codec, s, StartArm(session));
    var taken := TakenOf(s.queue, session, TAKE_LIMIT);
    TakingCounts(s.queue, session, TAKE_LIMIT, a);
    spot' := if CountId(taken, a) > 0 then InBatch(s.minted) else spot;
    forall t | t in s'.tasks.m ensures Holding(s', a, spot', t) {
      if t in s.tasks.m { assert Holding(s, a, spot, t); }
    }
  }

  /** What a session has queued is handed over as it is. */
  lemma {:induction false} DrainSpot(codec: Codec, s: Sys, session: Uuid, a: Uuid, spot: Spot) returns (spot': Spot)
    requires SingleAt(s, a, spot)
    ensures SingleAt(Step(codec, s, DrainPublic(session)), a, spot')
  {
    var s' := Step(codec, s, DrainPublic(session));
    var taken := TakenOf(s.queue, session, PUBLIC_LIMIT);
    TakingCounts(s.queue, session, PUBLIC_LIMIT, a);
    AllDeliveriesUnpermitted(s.log, taken, a);
    spot' := if CountId(taken, a) > 0 then Handed else spot;
    forall t | t in s'.tasks.m ensures Holding(s', a, spot', t) { assert Holding(s, a, spot, t); }
  }

  lemma {:induction false} StartSpot(codec: Codec, s: Sys, l: Label, a: Uuid, spot: Spot)
    requires GateInv(s) && SingleAt(s, a, spot)
    requires !l.Advance? && !l.StartArm? && !l.EnqueuePublic? && !l.DrainPublic? && !l.Redeliver?
    ensures SingleAt(Step(codec, s, l), a, spot)
  {
    hide Inv, Continue;
    var s' := Step(codec, s, l);
    if l.DropQueued? && l.index < |s.queue| { DroppingCounts(s.queue, l.index, a); }
    forall t | t in s'.tasks.m ensures Holding(s', a, spot, t) {
      if t in s.tasks.m { assert Holding(s, a, spot, t); }
    }
  }

  lemma {:induction false} PublicSpot(codec: Codec, s: Sys, session: Uuid, kind: Kind, a: Uuid, spot: Spot)
    returns (spot': Spot)
    requires Inv(s) && Facts(codec, s) && SingleAt(s, a, spot)
    ensures SingleAt(Step(codec, s, EnqueuePublic(session, kind)), a, spot')
  {
    hide Continue;
    forall x | x in s.sent ensures x.id != s.minted { assert ItemOk(s, x); }
    assert s.minted !in s.tasks.m;
    spot' := SendSpot(s, Step(codec, s, EnqueuePublic(session, kind)), s.minted, QueuedAction(s.minted, session, kind),
                      a, spot);
  }

  lemma {:induction false} ContinueSpot(codec: Codec, s: Sys, tid: nat, c: Choice, a: Uuid, spot: Spot)
    returns (spot': Spot)
    requires Inv(s) && AllOrNothing(s) && tid in s.tasks.m && SingleAt(s, a, spot)
    ensures SingleAt(Continue(codec, s, tid, s.tasks.m[tid], c), a, spot')
  {
    hide Continue;
    AdvanceNarrates(codec, s, tid, c);
    assert ConfirmOk(s, s.tasks.m[tid]);
    spot' := AdvanceSpot(s, Continue(codec, s, tid, s.tasks.m[tid], c), tid, a, spot);
  }

  lemma {:induction false} StepSpot(codec: Codec, s: Sys, l: Label, a: Uuid, spot: Spot) returns (spot': Spot)
    requires Sound(codec, s) && SingleAt(s, a, spot) && !l.Redeliver?
    ensures SingleAt(Step(codec, s, l), a, spot')
  {
    hide Facts;
    match l
    case Advance(tid, c) =>
      if tid in s.tasks.m {
        spot' := ContinueSpot(codec, s, tid, c, a, spot);
      } else {
        spot' := spot;
      }
    case StartArm(session) => spot' := TakeSpot(codec, s, session, a, spot);
    case DrainPublic(session) => spot' := DrainSpot(codec, s, session, a, spot);
    case EnqueuePublic(session, kind) => spot' := PublicSpot(codec, s, session, kind, a, spot);
    case _ =>
      spot' := spot;
      StartSpot(codec, s, l, a, spot);
  }

  /** The queue never delivers anything it has handed out already. */
  predicate HandsOutOnce(labels: seq<Label>) { forall l | l in labels :: !l.Redeliver? }

  lemma {:induction false} RunSpot(codec: Codec, keyAvailable: bool, labels: seq<Label>, a: Uuid) returns (spot: Spot)
    requires HandsOutOnce(labels)
    ensures SingleAt(Run(codec, Init(keyAvailable), labels), a, spot)
  {
    hide Inv;
    if labels == [] {
      spot := Never;
    } else {
      var n := |labels| - 1;
      assert labels[n] in labels && forall l | l in labels[..n] :: l in labels;
      spot := RunSpot(codec, keyAvailable, labels[..n], a);
      RunSound(codec, keyAvailable, labels[..n]);
      spot := StepSpot(codec, Run(codec, Init(keyAvailable), labels[..n]), labels[n], a, spot);
    }
  }

  /**
   * With a queue that hands out what it was given once, every action reaches
   * the executor at most once in all, with a permit or without, whatever
   * becomes of its record.
   */
  lemma DeliveredAtMostOnce(codec: Codec, keyAvailable: bool, labels: seq<Label>, a: Uuid)
    requires HandsOutOnce(labels)
    ensures AllDeliveries(Run(codec, Init(keyAvailable), labels).log, a) <= 1
  {
    var spot := RunSpot(codec, keyAvailable, labels, a);
  }

  // ------------------------------------------------------- deliveries without a permit

  /** The state before the `i`-th step of a run. */
  function Before(codec: Codec, keyAvailable: bool, labels: seq<Label>, i: nat): Sys
    requires i <= |labels|
  {
    Run(codec, Init(keyAvailable), labels[..i])
  }

  /** The `i`-th step advances this task. */
  predicate Steps(labels: seq<Label>, i: nat, tid: nat) { i < |labels| && labels[i].Advance? && labels[i].task == tid }

  predicate RecordOfSession(s: Sys, a: Uuid, session: Uuid) { a in s.records.m && s.records.m[a].session == session }

  /** A snapshot of a batch with `x` in it, at which `x` has no record of the session. */
  predicate Misses(s: Sys, tid: nat, x: QueuedAction) {
    && tid in s.tasks.m && Snapshotting(s.tasks.m[tid])
    && x in s.tasks.m[tid].pc.taken && !RecordOfSession(s, x.id, s.tasks.m[tid].pc.session)
  }

  /** The task comes to `x` in its batch. */
  predicate ComesTo(s: Sys, tid: nat, x: QueuedAction) {
    tid in s.tasks.m && s.tasks.m[tid].Bare? && s.tasks.m[tid].pc.Arming? && s.tasks.m[tid].pc.batch.head == x
  }

  /** At step `i` the task snapshots a batch without a record of `x`, and at step `j` it comes to `x`. */
  ghost predicate PassesUntracked(codec: Codec, keyAvailable: bool, labels: seq<Label>, x: QueuedAction, tid: nat,
                                  i: nat, j: nat) {
    && i < j && Steps(labels, i, tid) && Steps(labels, j, tid)
    && Misses(Before(codec, keyAvailable, labels, i), tid, x) && ComesTo(Before(codec, keyAvailable, labels, j), tid, x)
  }

  /** Step `i` drains the queue of the session of `x`, with `x` among what it takes. */
  ghost predicate DrainedAt(codec: Codec, keyAvailable: bool, labels: seq<Label>, x: QueuedAction, i: nat) {
    && i < |labels| && labels[i].DrainPublic?
    && x in TakenOf(Before(codec, keyAvailable, labels, i).queue, labels[i].session, PUBLIC_LIMIT)
  }

  /** The two ways past arming: an executor that found no record, and the drain that looks for none. */
  ghost predicate LeavesUntracked(codec: Codec, keyAvailable: bool, labels: seq<Label>, x: QueuedAction) {
    || (exists i :: DrainedAt(codec, keyAvailable, labels, x, i))
    || (exists tid, i, j :: PassesUntracked(codec, keyAvailable, labels, x, tid, i, j))
  }

  /** The batch a task arms is part of what it snapshotted, and tracks what had a record then. */
  predicate FromSnapshot(s: Sys, tid: nat, b: Batch) {
    && tid in s.tasks.m && Snapshotting(s.tasks.m[tid])
    && var pc := s.tasks.m[tid].pc;
    && b.head in pc.taken && (forall x | x in b.rest :: x in pc.taken)
    && b.tracked == set x | x in pc.taken && RecordOfSession(s, x.id, pc.session) :: x.id
  }

  lemma {:induction false} SnapshotStays(s: Sys, tid: nat, b: Batch, b': Batch)
    requires FromSnapshot(s, tid, b) && PartOf(b', b)
    ensures FromSnapshot(s, tid, b')
  {
  }

  lemma {:induction false} SnapshotBegins(s: Sys, s': Sys, tid: nat, b': Batch)
    requires Narrates(s, s', tid) && tid in s'.tasks.m && Arms(s'.tasks.m[tid], b')
    requires !exists b :: Arms(s.tasks.m[tid], b) && PartOf(b', b)
    ensures FromSnapshot(s, tid, b')
  {
    assert BatchStep(s, s.tasks.m[tid], s'.tasks.m[tid]);
    var pc := s.tasks.m[tid].pc;
    assert (set x | x in pc.taken && x.id in s.records.m && s.records.m[x.id].session == pc.session :: x.id)
        == (set x | x in pc.taken && RecordOfSession(s, x.id, pc.session) :: x.id);
  }

  /** A step leaves the batches of other tasks alone, and starts no task with one. */
  lemma {:induction false} OthersKeepBatches(codec: Codec, s: Sys, l: Label, tid: nat, b: Batch)
    requires Inv(s) && !(l.Advance? && l.task == tid)
    requires tid in Step(codec, s, l).tasks.m && Arms(Step(codec, s, l).tasks.m[tid], b)
    ensures tid in s.tasks.m && Arms(s.tasks.m[tid], b)
  {
    hide Inv, Continue;
    var s' := Step(codec, s, l);
    if l.Advance? {
      if l.task in s.tasks.m { AdvanceNarrates(codec, s, l.task, l.choice); }
    } else if !(tid in s.tasks.m && s'.tasks.m[tid] == s.tasks.m[tid]) {
      BatchlessArmsNothing(s'.tasks.m[tid], b);
    }
  }

  /** A batch comes from the step before, or from the snapshot that step made. */
  lemma {:induction false} BatchCameFrom(codec: Codec, s: Sys, l: Label, tid: nat, b: Batch)
    returns (before: Option<Batch>)
    requires Inv(s) && tid in Step(codec, s, l).tasks.m && Arms(Step(codec, s, l).tasks.m[tid], b)
    ensures before.Some? ==> tid in s.tasks.m && Arms(s.tasks.m[tid], before.value) && PartOf(b, before.value)
    ensures before.None? ==> l.Advance? && l.task == tid && FromSnapshot(s, tid, b)
  {
    if l.Advance? && l.task == tid {
      assert tid in s.tasks.m;
      AdvanceNarrates(codec, s, tid, l.choice);
      if b0 :| Arms(s.tasks.m[tid], b0) && PartOf(b, b0) {
        before := Some(b0);
      } else {
        SnapshotBegins(s, Step(codec, s, l), tid, b);
        before := None;
      }
    } else {
      OthersKeepBatches(codec, s, l, tid, b);
      before := Some(b);
    }
  }

  lemma BeforeNext(codec: Codec, keyAvailable: bool, labels: seq<Label>, i: nat)
    requires i < |labels|
    ensures Before(codec, keyAvailable, labels, i + 1) == Step(codec, Before(codec, keyAvailable, labels, i), labels[i])
    ensures Inv(Before(codec, keyAvailable, labels, i))
  {
    assert labels[..i + 1][..i] == labels[..i];
    RunSound(codec, keyAvailable, labels[..i]);
  }

  lemma {:induction false} BatchOrigin(codec: Codec, keyAvailable: bool, labels: seq<Label>, n: nat, tid: nat, b: Batch)
    returns (i: nat)
    requires n <= |labels|
    requires tid in Before(codec, keyAvailable, labels, n).tasks.m
    requires Arms(Before(codec, keyAvailable, labels, n).tasks.m[tid], b)
    ensures i < n && Steps(labels, i, tid) && FromSnapshot(Before(codec, keyAvailable, labels, i), tid, b)
  {
    assert n > 0;
    BeforeNext(codec, keyAvailable, labels, n - 1);
    var before := BatchCameFrom(codec, Before(codec, keyAvailable, labels, n - 1), labels[n - 1], tid, b);
    if before.Some? {
      i := BatchOrigin(codec, keyAvailable, labels, n - 1, tid, before.value);
      SnapshotStays(Before(codec, keyAvailable, labels, i), tid, before.value, b);
    } else {
      i := n - 1;
    }
  }

  /** A task snapshots once: having left that point it never comes back to it. */
  ghost predicate PastSnapshot(s: Sys, tid: nat) {
    tid < s.minted && (tid in s.tasks.m ==> !Snapshotting(s.tasks.m[tid]))
  }

  lemma {:induction false} StepPastSnapshot(codec: Codec, s: Sys, l: Label, tid: nat)
    requires Inv(s) && tid < s.minted
    requires (tid in s.tasks.m ==> !Snapshotting(s.tasks.m[tid])) || (l.Advance? && l.task == tid)
    ensures PastSnapshot(Step(codec, s, l), tid)
  {
    hide Continue;
    StepMints(codec, s, l);
    if l.Advance? && l.task in s.tasks.m { AdvanceNarrates(codec, s, l.task, l.choice); }
  }

  lemma {:induction false} PlanningMints(codec: Codec, s: Sys, tid: nat, pc: Pc, c: Choice)
    ensures StepPlanStart(codec, s, tid, pc, c).minted >= s.minted
    ensures StepConfirm(s, tid, pc, c).minted >= s.minted
  {
    hide Prepare, ValidRefs, SurfaceIs;
  }

  lemma {:induction false} HandlerMints(codec: Codec, s: Sys, tid: nat, pc: Pc, c: Choice)
    ensures StepPlanStart(codec, s, tid, pc, c).minted >= s.minted
    ensures StepConfirm(s, tid, pc, c).minted >= s.minted
    ensures StepRelease(s, tid, pc).minted >= s.minted
    ensures StepArm(codec, s, tid, pc).minted >= s.minted
  {
    hide StepPlanStart, StepConfirm, VerifiedAtDispatch;
    PlanningMints(codec, s, tid, pc, c);
  }

  lemma {:induction false} ReconcileMints(s: Sys, tid: nat, pc: Pc, c: Choice)
    ensures StepReconcile(s, tid, pc, c).minted >= s.minted
  {
    hide A.BeginObservation, A.AbandonObservation, A.CompleteObservation, A.RecordPostcondition, A.Record, Draft;
  }

  lemma {:induction false} HoldingMints(codec: Codec, s: Sys, tid: nat, t: Task, c: Choice)
    ensures t.HoldingPlan? ==> StepPlan(s, tid, t.plan, t.at, c).minted >= s.minted
    ensures t.HoldingPlan? ==> StepConfirmPlan(codec, s, tid, t.plan, t.at, c).minted >= s.minted
    ensures t.HoldingCapability? ==> StepCapability(s, tid, t.gated, t.capability, t.onward).minted >= s.minted
    ensures t.HoldingPermit? ==> StepPermit(s, tid, t.gated, t.permit, t.after, c).minted >= s.minted
    ensures t.Draining? ==> StepDrain(s, tid, t, c).minted >= s.minted
  {
    hide A.Record, A.RecordPrepared, A.BeginDispatch, A.AbandonDispatch, A.Linearize, Materialize, SurfaceIs;
  }

  lemma {:induction false} ContinueMints(codec: Codec, s: Sys, tid: nat, t: Task, c: Choice)
    ensures Continue(codec, s, tid, t, c).minted >= s.minted
  {
    hide StepPlanStart, StepConfirm, StepRelease, StepArm, StepReconcile;
    hide StepPlan, StepConfirmPlan, StepCapability, StepPermit, StepDrain;
    if t.Bare? {
      HandlerMints(codec, s, tid, t.pc, c);
      ReconcileMints(s, tid, t.pc, c);
    } else {
      HoldingMints(codec, s, tid, t, c);
    }
  }

  lemma {:induction false} StepMints(codec: Codec, s: Sys, l: Label)
    ensures Step(codec, s, l).minted >= s.minted
  {
    hide Continue;
    if l.Advance? && l.task in s.tasks.m { ContinueMints(codec, s, l.task, s.tasks.m[l.task], l.choice); }
  }

  lemma {:induction false} NextPastSnapshot(codec: Codec, keyAvailable: bool, labels: seq<Label>, k: nat, tid: nat)
    requires k < |labels|
    requires PastSnapshot(Before(codec, keyAvailable, labels, k), tid)
             || (Steps(labels, k, tid) && tid in Before(codec, keyAvailable, labels, k).tasks.m)
    ensures PastSnapshot(Before(codec, keyAvailable, labels, k + 1), tid)
  {
    BeforeNext(codec, keyAvailable, labels, k);
    StepPastSnapshot(codec, Before(codec, keyAvailable, labels, k), labels[k], tid);
  }

  lemma {:induction false} SnapshotsOnce(codec: Codec, keyAvailable: bool, labels: seq<Label>, i: nat, k: nat, tid: nat)
    requires i < k <= |labels| && Steps(labels, i, tid) && tid in Before(codec, keyAvailable, labels, i).tasks.m
    ensures PastSnapshot(Before(codec, keyAvailable, labels, k), tid)
    decreases k
  {
    hide Inv, Before, PastSnapshot;
    if i < k - 1 { SnapshotsOnce(codec, keyAvailable, labels, i, k - 1, tid); }
    NextPastSnapshot(codec, keyAvailable, labels, k - 1, tid);
  }

  /** At the head of a batch that does not track it an action is handed over as it is. */
  lemma {:induction false} UntrackedHeadIsDelivered(codec: Codec, s: Sys, tid: nat, c: Choice)
    requires tid in s.tasks.m && s.tasks.m[tid].Bare? && s.tasks.m[tid].pc.Arming?
    requires var b := s.tasks.m[tid].pc.batch; b.head.id !in b.tracked
    ensures Step(codec, s, Advance(tid, c)).log == s.log + [Delivered(s.tasks.m[tid].pc.batch.head, false)]
  {
  }

  lemma {:induction false} StepKeepsLog(codec: Codec, s: Sys, l: Label, e: Event)
    requires Inv(s) && e in s.log
    ensures e in Step(codec, s, l).log
  {
    if l.Advance? && l.task in s.tasks.m {
      AdvanceNarrates(codec, s, l.task, l.choice);
      assert e in s.log + [Step(codec, s, l).log[|Step(codec, s, l).log| - 1]] || Step(codec, s, l).log == s.log;
    }
  }

  lemma {:induction false} LogStays(codec: Codec, keyAvailable: bool, labels: seq<Label>, j: nat, e: Event)
    requires j <= |labels| && e in Before(codec, keyAvailable, labels, j).log
    ensures e in Run(codec, Init(keyAvailable), labels).log
    decreases |labels| - j
  {
    if j == |labels| {
      assert labels[..j] == labels;
    } else {
      BeforeNext(codec, keyAvailable, labels, j);
      StepKeepsLog(codec, Before(codec, keyAvailable, labels, j), labels[j], e);
      LogStays(codec, keyAvailable, labels, j + 1, e);
    }
  }

  lemma {:induction false} StepDelivers(codec: Codec, s: Sys, l: Label, x: QueuedAction)
    requires Inv(s) && Delivered(x, false) !in s.log && Delivered(x, false) in Step(codec, s, l).log
    ensures if l.DrainPublic? then x in TakenOf(s.queue, l.session, PUBLIC_LIMIT)
            else l.Advance? && ComesTo(s, l.task, x) && x.id !in s.tasks.m[l.task].pc.batch.tracked
  {
    if l.Advance? && l.task in s.tasks.m { AdvanceNarrates(codec, s, l.task, l.choice); }
  }

  /** Some step of the run wrote the event. */
  lemma {:induction false} DeliveryHappened(codec: Codec, keyAvailable: bool, labels: seq<Label>, n: nat,
                                            x: QueuedAction)
    returns (j: nat)
    requires n <= |labels| && Delivered(x, false) in Before(codec, keyAvailable, labels, n).log
    ensures j < |labels|
    ensures DrainedAt(codec, keyAvailable, labels, x, j)
            || (labels[j].Advance? && ComesTo(Before(codec, keyAvailable, labels, j), labels[j].task, x)
                && x.id !in Before(codec, keyAvailable, labels, j).tasks.m[labels[j].task].pc.batch.tracked)
  {
    assert n > 0;
    if Delivered(x, false) in Before(codec, keyAvailable, labels, n - 1).log {
      j := DeliveryHappened(codec, keyAvailable, labels, n - 1, x);
    } else {
      BeforeNext(codec, keyAvailable, labels, n - 1);
      StepDelivers(codec, Before(codec, keyAvailable, labels, n - 1), labels[n - 1], x);
      j := n - 1;
    }
  }

  lemma {:induction false} UntrackedWasMissed(s: Sys, tid: nat, b: Batch)
    requires FromSnapshot(s, tid, b)
    ensures b.head.id !in b.tracked <==> Misses(s, tid, b.head)
  {
    var pc := s.tasks.m[tid].pc;
    if RecordOfSession(s, b.head.id, pc.session) { assert b.head in pc.taken; }
  }

  lemma {:induction false} MissedIsDelivered(codec: Codec, keyAvailable: bool, labels: seq<Label>, x: QueuedAction,
                                             tid: nat, i: nat, j: nat)
    requires PassesUntracked(codec, keyAvailable, labels, x, tid, i, j)
    ensures Delivered(x, false) in Run(codec, Init(keyAvailable), labels).log
  {
    hide Continue;
    var s := Before(codec, keyAvailable, labels, j);
    var b := s.tasks.m[tid].pc.batch;
    assert Arms(s.tasks.m[tid], b);
    var i' := BatchOrigin(codec, keyAvailable, labels, j, tid, b);
    if i < i' { SnapshotsOnce(codec, keyAvailable, labels, i, i', tid); }
    if i' < i { SnapshotsOnce(codec, keyAvailable, labels, i', i, tid); }
    UntrackedWasMissed(Before(codec, keyAvailable, labels, i), tid, b);
    UntrackedHeadIsDelivered(codec, s, tid, labels[j].choice);
    assert labels[..j + 1][..j] == labels[..j];
    LogStays(codec, keyAvailable, labels, j + 1, Delivered(x, false));
  }

  lemma {:induction false} DrainedIsDelivered(codec: Codec, keyAvailable: bool, labels: seq<Label>, x: QueuedAction,
                                              i: nat)
    requires DrainedAt(codec, keyAvailable, labels, x, i)
    ensures Delivered(x, false) in Run(codec, Init(keyAvailable), labels).log
  {
    hide Continue;
    var s := Before(codec, keyAvailable, labels, i);
    var taken := TakenOf(s.queue, labels[i].session, PUBLIC_LIMIT);
    var k :| 0 <= k < |taken| && taken[k] == x;
    assert Unpermitted(taken)[k] == Delivered(x, false);
    BeforeNext(codec, keyAvailable, labels, i);
    LogStays(codec, keyAvailable, labels, i + 1, Delivered(x, false));
  }

  lemma {:induction false} DeliveredCameUntracked(codec: Codec, keyAvailable: bool, labels: seq<Label>,
                                                  x: QueuedAction)
    requires Delivered(x, false) in Run(codec, Init(keyAvailable), labels).log
    ensures LeavesUntracked(codec, keyAvailable, labels, x)
  {
    hide Continue;
    assert labels[..|labels|] == labels;
    var j := DeliveryHappened(codec, keyAvailable, labels, |labels|, x);
    if !DrainedAt(codec, keyAvailable, labels, x, j) {
      var tid := labels[j].task;
      var b := Before(codec, keyAvailable, labels, j).tasks.m[tid].pc.batch;
      assert Arms(Before(codec, keyAvailable, labels, j).tasks.m[tid], b);
      var i := BatchOrigin(codec, keyAvailable, labels, j, tid, b);
      UntrackedWasMissed(Before(codec, keyAvailable, labels, i), tid, b);
      assert PassesUntracked(codec, keyAvailable, labels, x, tid, i, j);
    }
  }

  /**
   * Over any run, redeliveries and restarts included: an action is handed
   * over without a permit exactly if the drain that arms nothing took it off
   * the queue, or some executor snapshotted its batch when the action had no
   * record of the session, and later came to it.
   */
  lemma UntrackedDeliveryIsExact(codec: Codec, keyAvailable: bool, labels: seq<Label>, x: QueuedAction)
    ensures Delivered(x, false) in Run(codec, Init(keyAvailable), labels).log
       <==> LeavesUntracked(codec, keyAvailable, labels, x)
  {
    if Delivered(x, false) in Run(codec, Init(keyAvailable), labels).log {
      DeliveredCameUntracked(codec, keyAvailable, labels, x);
    }
    if i :| DrainedAt(codec, keyAvailable, labels, x, i) { DrainedIsDelivered(codec, keyAvailable, labels, x, i); }
    if tid, i, j :| PassesUntracked(codec, keyAvailable, labels, x, tid, i, j) {
      MissedIsDelivered(codec, keyAvailable, labels, x, tid, i, j);
    }
  }

  /** Some action was delivered exactly if the log says so of one. */
  lemma {:induction false} SomeDelivery(log: seq<Event>, a: Uuid)
    ensures AllDeliveries(log, a) > 0 <==> exists e :: e in log && e.Delivered? && e.action.id == a
    ensures Deliveries(log, a) > 0 <==> exists e :: e in log && e.Delivered? && e.permitted && e.action.id == a
  {
    if log != [] {
      var n := |log| - 1;
      SomeDelivery(log[..n], a);
      assert log == log[..n] + [log[n]];
    }
  }

  /**
   * When the durable status says an action was not dispatched, the executor
   * never got it under a permit; and it never got it at all exactly if the
   * action took neither way past arming.
   */
  lemma NotDispatchedIsTrue(codec: Codec, keyAvailable: bool, labels: seq<Label>, a: Uuid, latest: Option<J.Verdict>)
    requires var state := J.RecoveryOf(Run(codec, Init(keyAvailable), labels).journal.entries, a);
             state.Some? && DurableReading(state.value, latest) == ReadKnownNotDispatched
    ensures var s := Run(codec, Init(keyAvailable), labels);
            && Deliveries(s.log, a) == 0
            && (AllDeliveries(s.log, a) == 0 <==>
                  forall x: QueuedAction | x.id == a :: !LeavesUntracked(codec, keyAvailable, labels, x))
  {
    hide Run, LeavesUntracked, DurableReading;
    var s := Run(codec, Init(keyAvailable), labels);
    DurablyNotDispatchedIsTrue(codec, keyAvailable, labels, a, latest);
    SomeDelivery(s.log, a);
    forall x: QueuedAction { UntrackedDeliveryIsExact(codec, keyAvailable, labels, x); }
    if AllDeliveries(s.log, a) > 0 {
      var e :| e in s.log && e.Delivered? && e.action.id == a;
      assert e == Delivered(e.action, false);
    }
  }
}
