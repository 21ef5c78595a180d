/** What a step can tell the outside world, and what becomes of an executor's batch. */
module ManagedNarrative {
  import opened Common
  import opened ManagedPayload
  import opened Managed
  import opened ManagedAuthority
  import opened ManagedFacts
  import J = Journal
  import A = JournalApi

  predicate IsArming(t: Task, x: QueuedAction) {
    t.Bare? && t.pc.Arming? && t.pc.batch.head == x && x.id !in t.pc.batch.tracked
  }

  predicate IsDelivering(t: Task, x: QueuedAction) {
    t.HoldingPermit? && t.after.ArmDeliver? && t.after.batch.head == x
  }

  /** A delivery is made by the task that holds the permit, or by one whose batch does not track the action. */
  predicate Tells(t: Task, e: Event) {
    match e
    case Delivered(x, permitted) => if permitted then IsDelivering(t, x) else IsArming(t, x)
    case Observed(_, _, _, _) => true
  }

  predicate PcBatch(pc: Pc, b: Batch) {
    || (pc.Arming? && pc.batch == b) || (pc.ArmTake? && pc.batch == b) || (pc.ArmRefuse? && pc.batch == b)
    || (pc.RejectTake? && pc.batch == b) || (pc.RejectRecord? && pc.batch == b)
  }

  /** The batch a task is arming. */
  predicate Arms(t: Task, b: Batch) {
    || (t.Bare? && PcBatch(t.pc, b))
    || (t.HoldingCapability? && t.onward.ArmBegin? && t.onward.batch == b)
    || (t.HoldingCapability? && t.onward.CancelBegin? && PcBatch(t.onward.next, b))
    || (t.HoldingPermit? && t.after.ArmDeliver? && t.after.batch == b)
    || (t.HoldingPermit? && t.after.CancelFinish? && PcBatch(t.after.next, b))
  }

  predicate PartOf(b': Batch, b: Batch) {
    && b'.session == b.session && b'.tracked == b.tracked
    && (b'.head == b.head || b'.head in b.rest) && (forall x | x in b'.rest :: x in b.rest)
  }

  /** The batch goes on as a part of what it was, or has just been snapshotted. */
  ghost predicate BatchStep(s: Sys, t: Task, t': Task) {
    forall b' | Arms(t', b') ::
      || (exists b :: Arms(t, b) && PartOf(b', b))
      || (t.Bare? && t.pc.ArmSnapshot? && b'.head in t.pc.taken && (forall x | x in b'.rest :: x in t.pc.taken)
          && b'.tracked
             == (set x | x in t.pc.taken && x.id in s.records.m && s.records.m[x.id].session == t.pc.session :: x.id))
  }

  function Whole(b: Batch): seq<QueuedAction> { [b.head] + b.rest }

  function RemainingAt(pc: Pc): seq<QueuedAction> {
    match pc
    case ArmSnapshot(_, taken) => taken
    case Arming(b) => Whole(b)
    case ArmTake(b) => Whole(b)
    case ArmRefuse(b) => Whole(b)
    case RejectTake(b) => Whole(b)
    case RejectRecord(b) => Whole(b)
    case _ => []
  }

  /** What a task took off the queue and has not gone past. */
  function Remaining(t: Task): seq<QueuedAction> {
    match t
    case Bare(_, pc) => RemainingAt(pc)
    case HoldingCapability(_, _, onward) =>
      if onward.ArmBegin? then Whole(onward.batch) else if onward.CancelBegin? then RemainingAt(onward.next) else []
    case HoldingPermit(_, _, after) =>
      if after.ArmDeliver? then Whole(after.batch) else RemainingAt(after.next)
    case _ => []
  }

  /** What one step of a task does to the queue, to what the task has taken and to what has been delivered. */
  predicate Flows(s: Sys, s': Sys, t: Task, left: seq<QueuedAction>) {
    var taken := Remaining(t);
    || (s'.log == s.log && s'.sent == s.sent && s'.queue == s.queue
        && (left == taken || left == [] || (taken != [] && left == taken[1..])))
    || (s'.sent == s.sent && s'.queue == s.queue && taken != [] && left == taken[1..]
        && |s'.log| == |s.log| + 1 && s'.log[..|s.log|] == s.log && s'.log[|s.log|].Delivered?
        && s'.log[|s.log|].action == taken[0])
    || (s'.sent == s.sent && s'.queue == s.queue && left == []
        && |s'.log| == |s.log| + 1 && s'.log[..|s.log|] == s.log && s'.log[|s.log|].Observed?)
    || (t.Bare? && t.pc.ConfirmEnqueue? && s'.log == s.log && left == []
        && s'.sent == s.sent + [t.pc.plan.action] && s'.queue == s.queue + [t.pc.plan.action])
    || (t.Bare? && t.pc.ReleaseQueue? && s'.log == s.log && s'.sent == s.sent && left == []
        && s'.queue == WithoutSession(s.queue, t.pc.session))
  }

  predicate Snapshotting(t: Task) { t.Bare? && t.pc.ArmSnapshot? }

  function LeftOf(s: Sys, tid: nat): seq<QueuedAction> { if tid in s.tasks.m then Remaining(s.tasks.m[tid]) else [] }

  ghost predicate Narrates(s: Sys, s': Sys, tid: nat) {
    && tid in s.tasks.m && Flows(s, s', s.tasks.m[tid], LeftOf(s', tid))
    && (tid in s'.tasks.m ==> !Snapshotting(s'.tasks.m[tid]))
    && (s'.log == s.log
        || (|s'.log| == |s.log| + 1 && s'.log == s.log + [s'.log[|s.log|]] && Tells(s.tasks.m[tid], s'.log[|s.log|])))
    && (forall t | t in s'.tasks.m && t != tid :: t in s.tasks.m && s'.tasks.m[t] == s.tasks.m[t])
    && (tid in s'.tasks.m ==> BatchStep(s, s.tasks.m[tid], s'.tasks.m[tid]))
    && s'.book.m.Keys >= s.book.m.Keys && (forall a | a in s'.book.m && a !in s.book.m :: a >= s.minted)
  }

  predicate Batchless(t: Task) {
    || (t.Bare? && !t.pc.Arming? && !t.pc.ArmTake? && !t.pc.ArmRefuse? && !t.pc.RejectTake? && !t.pc.RejectRecord?)
    || t.HoldingPlan? || t.Completing? || t.Draining?
    || (t.HoldingCapability? && (t.onward.ConfirmStash? || (t.onward.CancelBegin? && t.onward.next.RollbackEnd?)))
    || (t.HoldingPermit? && t.after.CancelFinish? && t.after.next.RollbackEnd?)
  }

  /** Most handlers say nothing and have no batch. */
  lemma {:induction false} Silent(s: Sys, s': Sys, tid: nat)
    requires tid in s.tasks.m && s'.log == s.log && s'.book == s.book && s'.queue == s.queue && s'.sent == s.sent
    requires if tid in s'.tasks.m
             then s'.tasks == s.tasks.With(tid, s'.tasks.m[tid]) && Batchless(s'.tasks.m[tid])
                  && !Snapshotting(s'.tasks.m[tid])
             else s'.tasks == s.tasks.Without({tid})
    ensures Narrates(s, s', tid)
  {
    if tid in s'.tasks.m {
      forall b' | Arms(s'.tasks.m[tid], b') ensures false { BatchlessArmsNothing(s'.tasks.m[tid], b'); }
    }
  }

  lemma {:induction false} BatchlessArmsNothing(t: Task, b: Batch)
    requires Batchless(t)
    ensures !Arms(t, b)
  {
  }

  lemma {:induction false} PlanNarrates(codec: Codec, s: Sys, tid: nat, c: Choice)
    requires Inv(s) && tid in s.tasks.m && s.tasks.m[tid].Bare? && IsPlanPc(s.tasks.m[tid].pc)
    ensures Narrates(s, StepPlanStart(codec, s, tid, s.tasks.m[tid].pc, c), tid)
  {
    var s' := StepPlanStart(codec, s, tid, s.tasks.m[tid].pc, c);
    if s'.book == s.book {
      Silent(s, s', tid);
    } else {
      Silent(s, s'.(book := s.book), tid);
    }
  }

  lemma {:induction false} HoldingPlanNarrates(s: Sys, tid: nat, c: Choice)
    requires tid in s.tasks.m && s.tasks.m[tid].HoldingPlan?
    requires IsPlanning(s.tasks.m[tid].at)
    ensures Narrates(s, StepPlan(s, tid, s.tasks.m[tid].plan, s.tasks.m[tid].at, c), tid)
  {
    Silent(s, StepPlan(s, tid, s.tasks.m[tid].plan, s.tasks.m[tid].at, c), tid);
  }

  lemma {:induction false} ConfirmChecksNarrate(codec: Codec, s: Sys, tid: nat, c: Choice)
    requires tid in s.tasks.m && s.tasks.m[tid].HoldingPlan?
    requires var at := s.tasks.m[tid].at;
             at.ConfirmCheck? || at.ConfirmPrune? || at.ConfirmCapacity? || at.ConfirmMaterialize?
    ensures Narrates(s, StepConfirmPlan(codec, s, tid, s.tasks.m[tid].plan, s.tasks.m[tid].at, c), tid)
  {
    Silent(s, StepConfirmPlan(codec, s, tid, s.tasks.m[tid].plan, s.tasks.m[tid].at, c), tid);
  }

  lemma {:induction false} ConfirmJournalNarrates(codec: Codec, s: Sys, tid: nat, c: Choice)
    requires tid in s.tasks.m && s.tasks.m[tid].HoldingPlan?
    requires s.tasks.m[tid].at.ConfirmAuthorize? || s.tasks.m[tid].at.ConfirmPrepare?
    ensures Narrates(s, StepConfirmPlan(codec, s, tid, s.tasks.m[tid].plan, s.tasks.m[tid].at, c), tid)
  {
    Silent(s, StepConfirmPlan(codec, s, tid, s.tasks.m[tid].plan, s.tasks.m[tid].at, c), tid);
  }

  lemma {:induction false} ConfirmNarrates(s: Sys, tid: nat, c: Choice)
    requires tid in s.tasks.m && s.tasks.m[tid].Bare? && IsConfirmPc(s.tasks.m[tid].pc)
    ensures Narrates(s, StepConfirm(s, tid, s.tasks.m[tid].pc, c), tid)
  {
    var s' := StepConfirm(s, tid, s.tasks.m[tid].pc, c);
    if s.tasks.m[tid].pc.ConfirmEnqueue? && c.ok {
      Silent(s, s'.(queue := s.queue, sent := s.sent), tid);
    } else {
      Silent(s, s', tid);
    }
  }

  lemma {:induction false} ReleaseNarrates(s: Sys, tid: nat)
    requires tid in s.tasks.m && s.tasks.m[tid].Bare? && IsReleasePc(s.tasks.m[tid].pc)
    ensures Narrates(s, StepRelease(s, tid, s.tasks.m[tid].pc), tid)
  {
    var s' := StepRelease(s, tid, s.tasks.m[tid].pc);
    if s.tasks.m[tid].pc.ReleaseQueue? {
      Silent(s, s'.(queue := s.queue), tid);
    } else {
      Silent(s, s', tid);
    }
  }

  lemma {:induction false} DrainNarrates(s: Sys, tid: nat, c: Choice)
    requires tid in s.tasks.m && s.tasks.m[tid].Draining? && !s.tasks.m[tid].current.Idle?
    ensures Narrates(s, StepDrain(s, tid, s.tasks.m[tid], c), tid)
  {
    hide Inv;
    Silent(s, StepDrain(s, tid, s.tasks.m[tid], c), tid);
  }

  lemma {:induction false} DrainIdleNarrates(s: Sys, tid: nat, c: Choice)
    requires tid in s.tasks.m && s.tasks.m[tid].Draining? && s.tasks.m[tid].current.Idle?
    ensures Narrates(s, StepDrain(s, tid, s.tasks.m[tid], c), tid)
  {
    var t := s.tasks.m[tid];
    var s' := StepDrain(s, tid, t, c);
    assert s.tasks == s.tasks.With(tid, t);
    Silent(s, s', tid);
  }

  lemma {:induction false} CompleteTakeNarrates(s: Sys, tid: nat, session: Uuid, a: Uuid, succeeded: bool)
    requires tid in s.tasks.m
    ensures Narrates(s, StepCompleteTake(s, tid, session, a, succeeded), tid)
  {
    Silent(s, StepCompleteTake(s, tid, session, a, succeeded), tid);
  }

  lemma {:induction false} CompletingNarrates(s: Sys, tid: nat, c: Choice)
    requires tid in s.tasks.m && s.tasks.m[tid].Completing?
    ensures var t := s.tasks.m[tid]; Narrates(s, StepCompleting(s, tid, t.permit, t.succeeded, c), tid)
  {
    var t := s.tasks.m[tid];
    Silent(s, StepCompleting(s, tid, t.permit, t.succeeded, c), tid);
  }

  lemma {:induction false} ObserveNarrates(s: Sys, tid: nat, c: Choice)
    requires tid in s.tasks.m && s.tasks.m[tid].Bare? && s.tasks.m[tid].pc.ReconcileSnapshot?
    ensures Narrates(s, StepReconcile(s, tid, s.tasks.m[tid].pc, c), tid)
  {
    var s' := StepReconcile(s, tid, s.tasks.m[tid].pc, c);
    Silent(s, s'.(log := s.log), tid);
  }

  lemma {:induction false} ReconcileNarrates(s: Sys, tid: nat, c: Choice)
    requires tid in s.tasks.m && s.tasks.m[tid].Bare?
    requires s.tasks.m[tid].pc.ReconcileBefore? || s.tasks.m[tid].pc.ReconcileBegin?
             || s.tasks.m[tid].pc.ReconcileFinish?
    ensures Narrates(s, StepReconcile(s, tid, s.tasks.m[tid].pc, c), tid)
  {
    hide A.Record;
    Silent(s, StepReconcile(s, tid, s.tasks.m[tid].pc, c), tid);
  }

  lemma {:induction false} ReceiptNarrates(s: Sys, tid: nat, c: Choice)
    requires tid in s.tasks.m && s.tasks.m[tid].Bare?
    requires s.tasks.m[tid].pc.ReconcileReceipt? || s.tasks.m[tid].pc.ReconcileCommit?
    ensures Narrates(s, StepReconcile(s, tid, s.tasks.m[tid].pc, c), tid)
  {
    hide Inv, A.Record;
    Silent(s, StepReconcile(s, tid, s.tasks.m[tid].pc, c), tid);
  }

  // --------------------------------------------------------- handlers with a batch

  lemma {:induction false} SamePart(s: Sys, t: Task, t': Task, b: Batch)
    requires Arms(t, b) && (forall b' | Arms(t', b') :: PartOf(b', b))
    ensures BatchStep(s, t, t')
  {
  }

  /** The task stays with the head of its batch. */
  lemma {:induction false} StaysOn(s: Sys, s': Sys, tid: nat, t': Task, b: Batch)
    requires tid in s.tasks.m && Arms(s.tasks.m[tid], b) && Remaining(s.tasks.m[tid]) == Whole(b)
    requires s'.tasks == s.tasks.With(tid, t') && s'.log == s.log && s'.book == s.book && s'.queue == s.queue
    requires s'.sent == s.sent
    requires Remaining(t') == Whole(b) && !Snapshotting(t') && (forall b' | Arms(t', b') :: b' == b)
    ensures Narrates(s, s', tid)
  {
    SamePart(s, s.tasks.m[tid], t', b);
  }

  /** The task goes past the head, which may have been delivered. */
  lemma {:induction false} GoesPastLast(s: Sys, s1: Sys, tid: nat, b: Batch, permitted: bool)
    requires tid in s.tasks.m && Arms(s.tasks.m[tid], b) && Remaining(s.tasks.m[tid]) == Whole(b)
    requires s1.tasks == s.tasks && s1.book == s.book && s1.queue == s.queue && s1.sent == s.sent
    requires s1.log == s.log || (s1.log == s.log + [Delivered(b.head, permitted)]
                                 && Tells(s.tasks.m[tid], Delivered(b.head, permitted)))
    requires b.rest == []
    ensures Narrates(s, Onward(s1, tid, b), tid)
  {
    assert Whole(b)[1..] == b.rest;
  }

  lemma NextIsPart(b: Batch)
    requires b.rest != []
    ensures PartOf(b.(head := b.rest[0], rest := b.rest[1..]), b)
  {
  }

  lemma {:induction false} GoesPastOn(s: Sys, s1: Sys, tid: nat, b: Batch, permitted: bool)
    requires tid in s.tasks.m && Arms(s.tasks.m[tid], b) && Remaining(s.tasks.m[tid]) == Whole(b)
    requires s1.tasks == s.tasks && s1.book == s.book && s1.queue == s.queue && s1.sent == s.sent
    requires s1.log == s.log || (s1.log == s.log + [Delivered(b.head, permitted)]
                                 && Tells(s.tasks.m[tid], Delivered(b.head, permitted)))
    requires b.rest != []
    ensures Narrates(s, Onward(s1, tid, b), tid)
  {
    hide Tells, BatchStep, PartOf;
    var s' := Onward(s1, tid, b);
    assert Whole(b)[1..] == b.rest;
    var b' := b.(head := b.rest[0], rest := b.rest[1..]);
    assert Whole(b') == b.rest;
    NextIsPart(b);
    assert forall b'' | Arms(s'.tasks.m[tid], b'') :: b'' == b';
    SamePart(s, s.tasks.m[tid], s'.tasks.m[tid], b);
  }

  lemma {:induction false} GoesPast(s: Sys, s1: Sys, tid: nat, b: Batch, permitted: bool)
    requires tid in s.tasks.m && Arms(s.tasks.m[tid], b) && Remaining(s.tasks.m[tid]) == Whole(b)
    requires s1.tasks == s.tasks && s1.book == s.book && s1.queue == s.queue && s1.sent == s.sent
    requires s1.log == s.log || (s1.log == s.log + [Delivered(b.head, permitted)]
                                 && Tells(s.tasks.m[tid], Delivered(b.head, permitted)))
    ensures Narrates(s, Onward(s1, tid, b), tid)
  {
    hide Narrates, Onward, Whole;
    if b.rest == [] { GoesPastLast(s, s1, tid, b, permitted); } else { GoesPastOn(s, s1, tid, b, permitted); }
  }

  lemma {:induction false} ArmPastNarrates(codec: Codec, s: Sys, tid: nat)
    requires tid in s.tasks.m && s.tasks.m[tid].Bare?
    requires s.tasks.m[tid].pc.ArmRefuse? || s.tasks.m[tid].pc.RejectRecord?
    ensures Narrates(s, StepArm(codec, s, tid, s.tasks.m[tid].pc), tid)
  {
    var b := s.tasks.m[tid].pc.batch;
    var status := if s.tasks.m[tid].pc.ArmRefuse? then DispatchAuthorityFailed else PayloadAuthorityFailed;
    GoesPast(s, SetStatus(s, b.head.id, status), tid, b, false);
  }

  lemma {:induction false} ArmingNarrates(codec: Codec, s: Sys, tid: nat)
    requires tid in s.tasks.m && s.tasks.m[tid].Bare? && s.tasks.m[tid].pc.Arming?
    ensures Narrates(s, StepArm(codec, s, tid, s.tasks.m[tid].pc), tid)
  {
    var b := s.tasks.m[tid].pc.batch;
    if b.head.id !in b.tracked {
      GoesPast(s, s.(log := s.log + [Delivered(b.head, false)]), tid, b, false);
    } else {
      var s' := StepArm(codec, s, tid, s.tasks.m[tid].pc);
      StaysOn(s, s', tid, s'.tasks.m[tid], b);
    }
  }

  lemma {:induction false} ArmTakeNarrates(codec: Codec, s: Sys, tid: nat)
    requires tid in s.tasks.m && s.tasks.m[tid].Bare? && s.tasks.m[tid].pc.ArmTake?
    ensures Narrates(s, StepArm(codec, s, tid, s.tasks.m[tid].pc), tid)
  {
    hide VerifiedAtDispatch, SetStatus;
    var s' := StepArm(codec, s, tid, s.tasks.m[tid].pc);
    StaysOn(s, s', tid, s'.tasks.m[tid], s.tasks.m[tid].pc.batch);
  }

  lemma {:induction false} RejectTakeNarrates(codec: Codec, s: Sys, tid: nat)
    requires tid in s.tasks.m && s.tasks.m[tid].Bare? && s.tasks.m[tid].pc.RejectTake?
    ensures Narrates(s, StepArm(codec, s, tid, s.tasks.m[tid].pc), tid)
  {
    hide VerifiedAtDispatch, SetStatus;
    var s' := StepArm(codec, s, tid, s.tasks.m[tid].pc);
    StaysOn(s, s', tid, s'.tasks.m[tid], s.tasks.m[tid].pc.batch);
  }

  lemma {:induction false} ArmSnapshotNarrates(codec: Codec, s: Sys, tid: nat)
    requires tid in s.tasks.m && s.tasks.m[tid].Bare? && s.tasks.m[tid].pc.ArmSnapshot?
    ensures Narrates(s, StepArm(codec, s, tid, s.tasks.m[tid].pc), tid)
  {
    hide Inv;
  }

  lemma {:induction false} ArmBeginNarrates(s: Sys, tid: nat)
    requires tid in s.tasks.m && s.tasks.m[tid].HoldingCapability? && s.tasks.m[tid].onward.ArmBegin?
    ensures var t := s.tasks.m[tid]; Narrates(s, StepCapability(s, tid, t.gated, t.capability, t.onward), tid)
  {
    hide A.BeginDispatch;
    var t := s.tasks.m[tid];
    var s' := StepCapability(s, tid, t.gated, t.capability, t.onward);
    StaysOn(s, s', tid, s'.tasks.m[tid], t.onward.batch);
  }

  lemma {:induction false} CapabilityNarrates(s: Sys, tid: nat)
    requires GateInv(s) && tid in s.tasks.m && s.tasks.m[tid].HoldingCapability?
    ensures var t := s.tasks.m[tid]; Narrates(s, StepCapability(s, tid, t.gated, t.capability, t.onward), tid)
  {
    hide A.BeginDispatch, Narrates;
    var t := s.tasks.m[tid];
    assert WellFormed(t);
    var s' := StepCapability(s, tid, t.gated, t.capability, t.onward);
    if t.onward.ArmBegin? {
      ArmBeginNarrates(s, tid);
    } else if t.onward.CancelBegin? && t.onward.next.RejectRecord? {
      StaysOn(s, s', tid, s'.tasks.m[tid], t.onward.next.batch);
    } else {
      Silent(s, s', tid);
    }
  }

  lemma {:induction false} PermitNarrates(s: Sys, tid: nat, c: Choice)
    requires GateInv(s) && tid in s.tasks.m && s.tasks.m[tid].HoldingPermit?
    ensures var t := s.tasks.m[tid]; Narrates(s, StepPermit(s, tid, t.gated, t.permit, t.after, c), tid)
  {
    var t := s.tasks.m[tid];
    assert WellFormed(t);
    var s' := StepPermit(s, tid, t.gated, t.permit, t.after, c);
    if t.after.ArmDeliver? {
      DeliverNarrates(s, tid, c);
    } else if t.after.next.RejectRecord? {
      StaysOn(s, s', tid, s'.tasks.m[tid], t.after.next.batch);
    } else {
      Silent(s, s', tid);
    }
  }

  lemma {:induction false} DeliverNarrates(s: Sys, tid: nat, c: Choice)
    requires tid in s.tasks.m && s.tasks.m[tid].HoldingPermit? && s.tasks.m[tid].after.ArmDeliver?
    ensures var t := s.tasks.m[tid]; Narrates(s, StepPermit(s, tid, t.gated, t.permit, t.after, c), tid)
  {
    var t := s.tasks.m[tid];
    var b := t.after.batch;
    assert Tells(t, Delivered(b.head, true));
    GoesPast(s, Move(s.(executing := s.executing.With(t.permit.action, ExecutingDispatch(b.session, t.permit)),
                        log := s.log + [Delivered(b.head, true)]), t.permit.action, AtExecuting), tid, b, true);
  }

  /** Every advance of every handler. */
  lemma {:induction false} AdvanceNarrates(codec: Codec, s: Sys, tid: nat, c: Choice)
    requires Inv(s) && tid in s.tasks.m
    ensures Narrates(s, Continue(codec, s, tid, s.tasks.m[tid], c), tid)
  {
    match s.tasks.m[tid]
    case Bare(_, pc) => BareNarrates(codec, s, tid, c);
    case HoldingPlan(_, at) =>
      if IsPlanning(at) { HoldingPlanNarrates(s, tid, c); }
      else if at.ConfirmAuthorize? || at.ConfirmPrepare? { ConfirmJournalNarrates(codec, s, tid, c); }
      else { ConfirmChecksNarrate(codec, s, tid, c); }
    case HoldingCapability(_, _, _) => CapabilityNarrates(s, tid);
    case HoldingPermit(_, _, _) => PermitNarrates(s, tid, c);
    case Completing(_, _) => CompletingNarrates(s, tid, c);
    case Draining(_, _, _, current) =>
      if current.Idle? { DrainIdleNarrates(s, tid, c); } else { DrainNarrates(s, tid, c); }
  }

  lemma {:induction false} BareNarrates(codec: Codec, s: Sys, tid: nat, c: Choice)
    requires Inv(s) && tid in s.tasks.m && s.tasks.m[tid].Bare?
    ensures Narrates(s, Continue(codec, s, tid, s.tasks.m[tid], c), tid)
  {
    var pc := s.tasks.m[tid].pc;
    if IsPlanPc(pc) { PlanNarrates(codec, s, tid, c); }
    else if IsReleasePc(pc) { ReleaseNarrates(s, tid); }
    else if pc.ArmSnapshot? { ArmSnapshotNarrates(codec, s, tid); }
    else if pc.ArmTake? { ArmTakeNarrates(codec, s, tid); }
    else if pc.RejectTake? { RejectTakeNarrates(codec, s, tid); }
    else if pc.Arming? { ArmingNarrates(codec, s, tid); }
    else if IsArmPc(pc) { ArmPastNarrates(codec, s, tid); }
    else if pc.CompleteTake? { CompleteTakeNarrates(s, tid, pc.session, pc.id, pc.succeeded); }
    else if IsConfirmPc(pc) { ConfirmNarrates(s, tid, c); }
    else if pc.ReconcileSnapshot? { ObserveNarrates(s, tid, c); }
    else if pc.ReconcileReceipt? || pc.ReconcileCommit? { ReceiptNarrates(s, tid, c); }
    else { ReconcileNarrates(s, tid, c); }
  }
}
