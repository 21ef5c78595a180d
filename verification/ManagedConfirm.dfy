/**
 * Dispatch authority only ever moves forward, and a confirmation is all or
 * nothing: it ends fully armed or leaves no trace of the action anywhere.
 */
module ManagedConfirm {
  import opened Common
  import opened ManagedPayload
  import opened Managed
  import opened ManagedAuthority
  import opened ManagedFacts
  import J = Journal
  import A = JournalApi

  // ------------------------------------------------------- authority moves forward

  function Progress(p: Place): nat {
    match StageAt(p)
    case Some(Planned) => 0
    case Some(Capable) => 1
    case Some(Permitted) => 2
    case Some(Running) => 3
    case None => 4
  }

  ghost predicate Forward(s: Sys, s': Sys) {
    && (forall a | a in s.place.m :: a in s'.place.m && Progress(s'.place.m[a]) >= Progress(s.place.m[a]))
    && (forall a | a in s'.place.m :: a in s.place.m || a >= s.minted)
  }

  lemma {:induction false} SamePlace(s: Sys, s': Sys)
    requires s'.place == s.place
    ensures Forward(s, s')
  {
  }

  /** Where an action is that a task holds, or that a table lists. */
  lemma {:induction false} PlaceOfHeld(s: Sys, tid: nat, a: Uuid)
    requires Inv(s) && tid in s.tasks.m && a in Holds(s.tasks.m[tid])
    ensures At(s, a, InTask(tid, Holds(s.tasks.m[tid])[a]))
  {
    OfAction(s, a);
  }

  lemma {:induction false} PlaceOfTabled(s: Sys, a: Uuid)
    requires Inv(s)
    ensures a in s.pending.m <==> At(s, a, AtPending)
    ensures a in s.prepared.m <==> At(s, a, AtPrepared)
    ensures a in s.executing.m <==> At(s, a, AtExecuting)
    ensures a in s.place.m ==> a < s.minted
    ensures a in s.place.m <==> a in s.book.m
  {
    OfAction(s, a);
  }

  lemma {:induction false} PlanStartForward(codec: Codec, s: Sys, tid: nat, c: Choice)
    requires Inv(s) && tid in s.tasks.m && s.tasks.m[tid].Bare? && IsPlanPc(s.tasks.m[tid].pc)
    ensures Forward(s, StepPlanStart(codec, s, tid, s.tasks.m[tid].pc, c))
  {
    PlaceOfTabled(s, s.minted);
  }

  lemma {:induction false} PlanForward(s: Sys, tid: nat, c: Choice)
    requires Inv(s) && tid in s.tasks.m && s.tasks.m[tid].HoldingPlan?
    ensures Forward(s, StepPlan(s, tid, s.tasks.m[tid].plan, s.tasks.m[tid].at, c))
  {
    hide TokenOk, StageOk;
    PlaceOfHeld(s, tid, s.tasks.m[tid].plan.action.id);
  }

  lemma {:induction false} ConfirmChecksForward(codec: Codec, s: Sys, tid: nat, c: Choice)
    requires Inv(s) && tid in s.tasks.m && s.tasks.m[tid].HoldingPlan?
    requires var at := s.tasks.m[tid].at; !at.ConfirmAuthorize? && !at.ConfirmPrepare?
    ensures Forward(s, StepConfirmPlan(codec, s, tid, s.tasks.m[tid].plan, s.tasks.m[tid].at, c))
  {
    PlaceOfHeld(s, tid, s.tasks.m[tid].plan.action.id);
  }

  lemma {:induction false} ConfirmJournalForward(codec: Codec, s: Sys, tid: nat, c: Choice)
    requires Inv(s) && tid in s.tasks.m && s.tasks.m[tid].HoldingPlan?
    requires var at := s.tasks.m[tid].at; at.ConfirmAuthorize? || at.ConfirmPrepare?
    ensures Forward(s, StepConfirmPlan(codec, s, tid, s.tasks.m[tid].plan, s.tasks.m[tid].at, c))
  {
    hide Inv;
    PlaceOfHeld(s, tid, s.tasks.m[tid].plan.action.id);
  }

  lemma {:induction false} ConfirmForward(s: Sys, tid: nat, c: Choice)
    requires Inv(s) && tid in s.tasks.m && s.tasks.m[tid].Bare? && IsConfirmPc(s.tasks.m[tid].pc)
    ensures Forward(s, StepConfirm(s, tid, s.tasks.m[tid].pc, c))
  {
    var pc := s.tasks.m[tid].pc;
    if pc.ConfirmConsume? { PlaceOfTabled(s, pc.id); }
    if pc.RollbackTake? { PlaceOfTabled(s, pc.plan.action.id); }
  }

  lemma {:induction false} ReleaseForward(s: Sys, tid: nat)
    requires Inv(s) && tid in s.tasks.m && s.tasks.m[tid].Bare? && IsReleasePc(s.tasks.m[tid].pc)
    ensures Forward(s, StepRelease(s, tid, s.tasks.m[tid].pc))
  {
    forall a: Uuid
      ensures a in s.pending.m <==> At(s, a, AtPending)
      ensures a in s.prepared.m <==> At(s, a, AtPrepared)
      ensures a in s.executing.m <==> At(s, a, AtExecuting)
    {
      PlaceOfTabled(s, a);
    }
  }

  lemma {:induction false} TakeExecutingForward(s: Sys, tid: nat, c: Choice)
    requires Inv(s) && tid in s.tasks.m && s.tasks.m[tid].Draining? && s.tasks.m[tid].current.TakeExecuting?
    ensures Forward(s, StepDrain(s, tid, s.tasks.m[tid], c))
  {
    forall a: Uuid ensures a in s.executing.m <==> At(s, a, AtExecuting) { PlaceOfTabled(s, a); }
  }

  lemma {:induction false} DrainForward(s: Sys, tid: nat, c: Choice)
    requires Inv(s) && tid in s.tasks.m && s.tasks.m[tid].Draining?
    requires s.tasks.m[tid].current.Beginning? || s.tasks.m[tid].current.Refusing?
    ensures Forward(s, StepDrain(s, tid, s.tasks.m[tid], c))
  {
    hide Inv, A.BeginDispatch, A.Linearize;
    var t := s.tasks.m[tid];
    PlaceOfHeld(s, tid, if t.current.Beginning? then t.current.capability.action else t.current.permit.action);
  }

  lemma {:induction false} DrainIdleForward(s: Sys, tid: nat, c: Choice)
    requires Inv(s) && tid in s.tasks.m && s.tasks.m[tid].Draining? && s.tasks.m[tid].current.Idle?
    ensures Forward(s, StepDrain(s, tid, s.tasks.m[tid], c))
  {
    var t := s.tasks.m[tid];
    if c.pick in t.permits || c.pick in t.capabilities { PlaceOfHeld(s, tid, c.pick); }
  }

  lemma {:induction false} CapabilityForward(s: Sys, tid: nat)
    requires Inv(s) && tid in s.tasks.m && s.tasks.m[tid].HoldingCapability?
    ensures var t := s.tasks.m[tid]; Forward(s, StepCapability(s, tid, t.gated, t.capability, t.onward))
  {
    var t := s.tasks.m[tid];
    PlaceOfHeld(s, tid, t.capability.action);
  }

  lemma {:induction false} PermitForward(s: Sys, tid: nat, c: Choice)
    requires Inv(s) && tid in s.tasks.m && s.tasks.m[tid].HoldingPermit?
    ensures var t := s.tasks.m[tid]; Forward(s, StepPermit(s, tid, t.gated, t.permit, t.after, c))
  {
    hide Inv;
    var t := s.tasks.m[tid];
    PlaceOfHeld(s, tid, t.permit.action);
  }

  lemma {:induction false} ArmForward(codec: Codec, s: Sys, tid: nat)
    requires Inv(s) && tid in s.tasks.m && s.tasks.m[tid].Bare? && IsArmPc(s.tasks.m[tid].pc)
    ensures Forward(s, StepArm(codec, s, tid, s.tasks.m[tid].pc))
  {
    hide Inv, ActionInv;
    var pc := s.tasks.m[tid].pc;
    if pc.ArmTake? || pc.RejectTake? { PlaceOfTabled(s, pc.batch.head.id); }
  }

  lemma {:induction false} CompleteTakeForward(s: Sys, tid: nat, session: Uuid, a: Uuid, succeeded: bool)
    requires Inv(s)
    ensures Forward(s, StepCompleteTake(s, tid, session, a, succeeded))
  {
    PlaceOfTabled(s, a);
  }

  lemma {:induction false} CompletingForward(s: Sys, tid: nat, c: Choice)
    requires Inv(s) && tid in s.tasks.m && s.tasks.m[tid].Completing?
    ensures var t := s.tasks.m[tid]; Forward(s, StepCompleting(s, tid, t.permit, t.succeeded, c))
  {
    PlaceOfHeld(s, tid, s.tasks.m[tid].permit.action);
  }

  lemma {:induction false} ReconcileSamePlace(s: Sys, tid: nat, pc: Pc, c: Choice)
    ensures StepReconcile(s, tid, pc, c).place == s.place
  {
  }

  /** No step ever gives authority back. */
  lemma {:induction false} StepForward(codec: Codec, s: Sys, l: Label)
    requires Inv(s)
    ensures Forward(s, Step(codec, s, l))
  {
    hide Facts, ActionInv, StepPlanStart, StepConfirm, StepRelease, StepArm, StepReconcile;
    if l.Advance? && l.task in s.tasks.m {
      var tid, c := l.task, l.choice;
      var t := s.tasks.m[tid];
      match t
      case Bare(_, pc) =>
        if IsPlanPc(pc) { PlanStartForward(codec, s, tid, c); }
        else if IsReleasePc(pc) { ReleaseForward(s, tid); }
        else if IsArmPc(pc) { ArmForward(codec, s, tid); }
        else if pc.CompleteTake? { CompleteTakeForward(s, tid, pc.session, pc.id, pc.succeeded); }
        else if IsConfirmPc(pc) { ConfirmForward(s, tid, c); }
        else { ReconcileSamePlace(s, tid, pc, c); }
      case HoldingPlan(_, at) =>
        if IsPlanning(at) { PlanForward(s, tid, c); }
        else if at.ConfirmAuthorize? || at.ConfirmPrepare? { ConfirmJournalForward(codec, s, tid, c); }
        else { ConfirmChecksForward(codec, s, tid, c); }
      case HoldingCapability(_, _, _) => CapabilityForward(s, tid);
      case HoldingPermit(_, _, _) => PermitForward(s, tid, c);
      case Completing(_, _) => CompletingForward(s, tid, c);
      case Draining(_, _, _, current) =>
        if current.Idle? { DrainIdleForward(s, tid, c); }
        else if current.TakeExecuting? { TakeExecutingForward(s, tid, c); }
        else { DrainForward(s, tid, c); }
    } else {
      var s' := Step(codec, s, l);
      if !l.Restart? { assert s'.place == s.place; }
    }
  }

  /** Once spent, for good: neither a later step nor a later process delivers the action under a permit. */
  lemma {:induction false} SpentForGood(codec: Codec, s: Sys, l: Label, a: Uuid)
    requires Inv(s) && At(s, a, Spent)
    ensures At(Step(codec, s, l), a, Spent)
  {
    StepForward(codec, s, l);
    assert Progress(Step(codec, s, l).place.m[a]) >= 4;
  }

  // ------------------------------------------------------- all or nothing

  /** The action was never handed to the live queue. */
  ghost predicate Unsent(s: Sys, a: Uuid) { forall x | x in s.sent :: x.id != a }

  /** No table, record or queue knows the action. */
  ghost predicate Nowhere(s: Sys, a: Uuid) {
    && At(s, a, Spent) && a !in s.pending.m && a !in s.prepared.m && a !in s.executing.m
    && a !in s.records.m && Unsent(s, a)
  }

  /** The confirming task still has the action to itself. */
  ghost predicate Exclusive(s: Sys, a: Uuid, p: Place) { At(s, a, p) && Unsent(s, a) }

  /** How far a confirming task has got with arming its action. */
  ghost predicate ConfirmOk(s: Sys, t: Task) {
    match t
    case Bare(_, pc) =>
      (match pc
       case ConfirmRecord(p) => Exclusive(s, p.action.id, AtPrepared) && p.action.id !in s.records.m
       case ConfirmEnqueue(p) =>
         Exclusive(s, p.action.id, AtPrepared) && (p.action.id in s.records.m || p.action.id in s.lapsed)
       case RollbackRecord(p) => Exclusive(s, p.action.id, AtPrepared)
       case RollbackTake(p) => Exclusive(s, p.action.id, AtPrepared) && p.action.id !in s.records.m
       case RollbackEnd(p) => Exclusive(s, p.action.id, Spent) && p.action.id !in s.records.m
       case _ => true)
    case HoldingCapability(_, c, onward) =>
      (match onward
       case ConfirmStash(p) => Unsent(s, c.action) && c.action !in s.records.m
       case CancelBegin(next) =>
         next.RollbackEnd? ==>
           next.plan.action.id == c.action && Unsent(s, c.action) && c.action !in s.records.m
       case _ => true)
    case HoldingPermit(_, p, after) =>
      (match after
       case CancelFinish(next) =>
         next.RollbackEnd? ==>
           next.plan.action.id == p.action && Unsent(s, p.action) && p.action !in s.records.m
       case _ => true)
    case _ => true
  }

  /** A plan not yet armed has left nothing in the queue and no record. */
  ghost predicate PlannedOk(s: Sys, a: Uuid) {
    a in s.place.m && Progress(s.place.m[a]) == 0 ==> Unsent(s, a) && a !in s.records.m
  }

  ghost predicate AllOrNothing(s: Sys) {
    && (forall a: Uuid :: PlannedOk(s, a))
    && (forall t | t in s.tasks.m :: ConfirmOk(s, s.tasks.m[t]))
  }

  /** Nothing a confirming task relies on is disturbed: no send, no new record, its place untouched. */
  ghost predicate Undisturbed(s: Sys, s': Sys) {
    && s'.sent == s.sent && s.lapsed <= s'.lapsed
    && s'.records.m.Keys <= s.records.m.Keys && s.records.m.Keys - s'.records.m.Keys <= s'.lapsed
    && (forall a | At(s, a, AtPrepared) && Unsent(s, a) :: At(s', a, AtPrepared))
  }

  lemma {:induction false} UndisturbedCarries(s: Sys, s': Sys, t: Task)
    requires ConfirmOk(s, t) && Undisturbed(s, s') && Forward(s, s')
    ensures ConfirmOk(s', t)
  {
    forall a | At(s, a, Spent) ensures At(s', a, Spent) {
      assert Progress(s'.place.m[a]) >= 4;
    }
  }

  /** Only gated handlers confirm. */
  lemma {:induction false} UngatedOk(s: Sys, t: Task)
    requires !NeedsGate(t) && WellFormed(t)
    ensures ConfirmOk(s, t)
  {
  }

  lemma {:induction false} PlannedCarries(codec: Codec, s: Sys, s': Sys, a: Uuid)
    requires PlannedOk(s, a) && Forward(s, s') && Facts(codec, s)
    requires s'.sent == s.sent && s'.records.m.Keys <= s.records.m.Keys
    ensures PlannedOk(s', a)
  {
    forall x | x in s.sent ensures x.id < s.minted { assert ItemOk(s, x); }
    forall b | b in s.records.m ensures b < s.minted { assert RecordOk(s, b, s.records.m[b]); }
  }

  // An ungated handler disturbs no confirmation, and stays ungated.

  ghost predicate UndisturbedBy(s: Sys, s': Sys, tid: nat) {
    Undisturbed(s, s') && (tid in s'.tasks.m ==> !NeedsGate(s'.tasks.m[tid]))
  }

  lemma {:induction false} ArmTakeUndisturbed(codec: Codec, s: Sys, tid: nat)
    requires Facts(codec, s) && tid in s.tasks.m && s.tasks.m[tid].Bare?
    requires s.tasks.m[tid].pc.ArmSnapshot? || s.tasks.m[tid].pc.ArmTake? || s.tasks.m[tid].pc.RejectTake?
    ensures UndisturbedBy(s, StepArm(codec, s, tid, s.tasks.m[tid].pc), tid)
  {
    hide Facts;
    TaskIsOk(codec, s, tid);
  }

  lemma {:induction false} ArmOnUndisturbed(codec: Codec, s: Sys, tid: nat)
    requires tid in s.tasks.m && s.tasks.m[tid].Bare?
    requires s.tasks.m[tid].pc.Arming? || s.tasks.m[tid].pc.ArmRefuse? || s.tasks.m[tid].pc.RejectRecord?
    ensures UndisturbedBy(s, StepArm(codec, s, tid, s.tasks.m[tid].pc), tid)
  {
    hide Inv;
  }

  lemma {:induction false} ReconcileUndisturbed(s: Sys, tid: nat, pc: Pc, c: Choice)
    requires tid in s.tasks.m && !NeedsGate(s.tasks.m[tid])
    requires pc.ReconcileBefore? || pc.ReconcileBegin? || pc.ReconcileSnapshot? || pc.ReconcileReceipt?
             || pc.ReconcileCommit? || pc.ReconcileFinish?
    ensures UndisturbedBy(s, StepReconcile(s, tid, pc, c), tid)
  {
    ReconcileSamePlace(s, tid, pc, c);
    ReconcileSameTables(s, tid, pc, c);
  }

  lemma {:induction false} BeginSameTables(s: Sys, tid: nat, pc: Pc, c: Choice)
    requires pc.ReconcileBefore? || pc.ReconcileBegin?
    ensures var s' := StepReconcile(s, tid, pc, c);
            && s'.records.m.Keys == s.records.m.Keys && s'.sent == s.sent && s'.lapsed == s.lapsed
            && (tid in s'.tasks.m ==> !NeedsGate(s'.tasks.m[tid]) || s'.tasks == s.tasks)
  {
    hide A.BeginObservation, SurfaceIs;
  }

  lemma {:induction false} SnapshotSameTables(s: Sys, tid: nat, pc: Pc, c: Choice)
    requires pc.ReconcileSnapshot?
    ensures var s' := StepReconcile(s, tid, pc, c);
            && s'.records.m.Keys == s.records.m.Keys && s'.sent == s.sent && s'.lapsed == s.lapsed
            && (tid in s'.tasks.m ==> !NeedsGate(s'.tasks.m[tid]) || s'.tasks == s.tasks)
  {
    hide A.CompleteObservation, A.AbandonObservation, SurfaceIs;
  }

  lemma {:induction false} ReconcileSameTables(s: Sys, tid: nat, pc: Pc, c: Choice)
    ensures var s' := StepReconcile(s, tid, pc, c);
            && s'.records.m.Keys == s.records.m.Keys && s'.sent == s.sent && s'.lapsed == s.lapsed
            && (tid in s'.tasks.m ==> !NeedsGate(s'.tasks.m[tid]) || s'.tasks == s.tasks)
  {
    hide A.Record, A.RecordPostcondition, Draft, LineageMatches;
    if pc.ReconcileBefore? || pc.ReconcileBegin? { BeginSameTables(s, tid, pc, c); }
    else if pc.ReconcileSnapshot? { SnapshotSameTables(s, tid, pc, c); }
  }

  lemma {:induction false} CompleteTakeUndisturbed(s: Sys, tid: nat, session: Uuid, a: Uuid, succeeded: bool)
    requires Inv(s) && tid in s.tasks.m && !NeedsGate(s.tasks.m[tid])
    ensures UndisturbedBy(s, StepCompleteTake(s, tid, session, a, succeeded), tid)
  {
    PlaceOfTabled(s, a);
  }

  lemma {:induction false} TokenUndisturbed(codec: Codec, s: Sys, tid: nat, c: Choice)
    requires Inv(s) && tid in s.tasks.m && !NeedsGate(s.tasks.m[tid]) && !s.tasks.m[tid].Bare?
    ensures UndisturbedBy(s, Continue(codec, s, tid, s.tasks.m[tid], c), tid)
  {
    hide ActionInv, StepPlanStart, StepConfirm, StepRelease, StepArm, StepReconcile, A.Record;
    var t := s.tasks.m[tid];
    assert WellFormed(t);
    match t
    case HoldingCapability(_, capability, _) => PlaceOfHeld(s, tid, capability.action);
    case HoldingPermit(_, permit, _) => PlaceOfHeld(s, tid, permit.action);
    case Completing(permit, _) => PlaceOfHeld(s, tid, permit.action);
  }

  // A gated handler is the only one confirming.

  ghost predicate Advances(codec: Codec, s: Sys, s': Sys, tid: nat) {
    && (tid in s'.tasks.m ==> ConfirmOk(s', s'.tasks.m[tid]))
    && (forall a: Uuid :: PlannedOk(s', a))
  }

  lemma {:induction false} AllPlannedCarry(codec: Codec, s: Sys, s': Sys)
    requires AllOrNothing(s) && Forward(s, s') && Facts(codec, s)
    requires s'.sent == s.sent && s'.records.m.Keys <= s.records.m.Keys
    ensures forall a: Uuid :: PlannedOk(s', a)
  {
    forall a: Uuid ensures PlannedOk(s', a) {
      assert PlannedOk(s, a);
      PlannedCarries(codec, s, s', a);
    }
  }

  lemma {:induction false} PlanStartAdvances(codec: Codec, s: Sys, tid: nat, c: Choice)
    requires Inv(s) && Facts(codec, s) && AllOrNothing(s)
    requires tid in s.tasks.m && s.tasks.m[tid].Bare? && IsPlanPc(s.tasks.m[tid].pc)
    ensures Advances(codec, s, StepPlanStart(codec, s, tid, s.tasks.m[tid].pc, c), tid)
  {
    PlanStartForward(codec, s, tid, c);
    AllPlannedCarry(codec, s, StepPlanStart(codec, s, tid, s.tasks.m[tid].pc, c));
  }

  lemma {:induction false} PlanAdvances(codec: Codec, s: Sys, tid: nat, c: Choice)
    requires Inv(s) && Facts(codec, s) && AllOrNothing(s) && tid in s.tasks.m && s.tasks.m[tid].HoldingPlan?
    ensures Advances(codec, s, StepPlan(s, tid, s.tasks.m[tid].plan, s.tasks.m[tid].at, c), tid)
  {
    hide Inv, Facts;
    var t := s.tasks.m[tid];
    PlanForward(s, tid, c);
    AllPlannedCarry(codec, s, StepPlan(s, tid, t.plan, t.at, c));
  }

  lemma {:induction false} ConfirmPlanAdvances(codec: Codec, s: Sys, tid: nat, c: Choice)
    requires Inv(s) && Facts(codec, s) && AllOrNothing(s) && tid in s.tasks.m && s.tasks.m[tid].HoldingPlan?
    requires !s.tasks.m[tid].at.ConfirmPrepare? && !s.tasks.m[tid].at.ConfirmAuthorize?
    ensures Advances(codec, s, StepConfirmPlan(codec, s, tid, s.tasks.m[tid].plan, s.tasks.m[tid].at, c), tid)
  {
    hide Facts;
    var t := s.tasks.m[tid];
    ConfirmChecksForward(codec, s, tid, c);
    AllPlannedCarry(codec, s, StepConfirmPlan(codec, s, tid, t.plan, t.at, c));
  }

  lemma {:induction false} AuthorizeAdvances(codec: Codec, s: Sys, tid: nat, c: Choice)
    requires Inv(s) && Facts(codec, s) && AllOrNothing(s)
    requires tid in s.tasks.m && s.tasks.m[tid].HoldingPlan? && s.tasks.m[tid].at.ConfirmAuthorize?
    ensures Advances(codec, s, StepConfirmPlan(codec, s, tid, s.tasks.m[tid].plan, ConfirmAuthorize, c), tid)
  {
    hide Inv;
    ConfirmJournalForward(codec, s, tid, c);
    AllPlannedCarry(codec, s, StepConfirmPlan(codec, s, tid, s.tasks.m[tid].plan, ConfirmAuthorize, c));
  }

  lemma {:induction false} PrepareAdvances(codec: Codec, s: Sys, tid: nat, c: Choice)
    requires Inv(s) && Facts(codec, s) && AllOrNothing(s)
    requires tid in s.tasks.m && s.tasks.m[tid].HoldingPlan? && s.tasks.m[tid].at.ConfirmPrepare?
    ensures Advances(codec, s, StepConfirmPlan(codec, s, tid, s.tasks.m[tid].plan, s.tasks.m[tid].at, c), tid)
  {
    hide Inv;
    var t := s.tasks.m[tid];
    var s' := StepConfirmPlan(codec, s, tid, t.plan, t.at, c);
    ConfirmJournalForward(codec, s, tid, c);
    AllPlannedCarry(codec, s, s');
    PreparedConfirms(codec, s, tid, c);
  }

  /** The task that got the capability is still the only one to know the action. */
  lemma {:induction false} PreparedConfirms(codec: Codec, s: Sys, tid: nat, c: Choice)
    requires Inv(s) && AllOrNothing(s)
    requires tid in s.tasks.m && s.tasks.m[tid].HoldingPlan? && s.tasks.m[tid].at.ConfirmPrepare?
    ensures var s' := StepConfirmPlan(codec, s, tid, s.tasks.m[tid].plan, s.tasks.m[tid].at, c);
            tid in s'.tasks.m ==> ConfirmOk(s', s'.tasks.m[tid])
  {
    PlaceOfHeld(s, tid, s.tasks.m[tid].plan.action.id);
    assert PlannedOk(s, s.tasks.m[tid].plan.action.id);
  }

  lemma {:induction false} ConfirmRecordAdvances(codec: Codec, s: Sys, tid: nat, c: Choice)
    requires Inv(s) && Facts(codec, s) && AllOrNothing(s)
    requires tid in s.tasks.m && s.tasks.m[tid].Bare?
    requires s.tasks.m[tid].pc.ConfirmRecord? || s.tasks.m[tid].pc.ConfirmEnqueue?
    ensures Advances(codec, s, StepConfirm(s, tid, s.tasks.m[tid].pc, c), tid)
  {
    hide Inv, Facts;
    var pc := s.tasks.m[tid].pc;
    var s' := StepConfirm(s, tid, pc, c);
    assert ConfirmOk(s, s.tasks.m[tid]);
    forall b: Uuid ensures PlannedOk(s', b) {
      assert PlannedOk(s, b);
    }
  }

  lemma {:induction false} ConfirmOtherAdvances(codec: Codec, s: Sys, tid: nat, c: Choice)
    requires Inv(s) && Facts(codec, s) && AllOrNothing(s)
    requires tid in s.tasks.m && s.tasks.m[tid].Bare? && IsConfirmPc(s.tasks.m[tid].pc)
    requires !s.tasks.m[tid].pc.ConfirmRecord? && !s.tasks.m[tid].pc.ConfirmEnqueue?
    ensures Advances(codec, s, StepConfirm(s, tid, s.tasks.m[tid].pc, c), tid)
  {
    hide Facts, Inv;
    var pc := s.tasks.m[tid].pc;
    assert ConfirmOk(s, s.tasks.m[tid]);
    ConfirmForward(s, tid, c);
    AllPlannedCarry(codec, s, StepConfirm(s, tid, pc, c));
    if pc.RollbackTake? { OfAction(s, pc.plan.action.id); }
  }

  lemma {:induction false} ReleaseAdvances(codec: Codec, s: Sys, tid: nat)
    requires Inv(s) && Facts(codec, s) && AllOrNothing(s)
    requires tid in s.tasks.m && s.tasks.m[tid].Bare? && IsReleasePc(s.tasks.m[tid].pc)
    ensures Advances(codec, s, StepRelease(s, tid, s.tasks.m[tid].pc), tid)
  {
    ReleaseForward(s, tid);
    AllPlannedCarry(codec, s, StepRelease(s, tid, s.tasks.m[tid].pc));
  }

  lemma {:induction false} DrainSameTables(s: Sys, tid: nat, c: Choice)
    requires tid in s.tasks.m && s.tasks.m[tid].Draining?
    ensures var s' := StepDrain(s, tid, s.tasks.m[tid], c);
            && s'.sent == s.sent && s'.records.m.Keys <= s.records.m.Keys
            && (tid in s'.tasks.m ==> ConfirmOk(s', s'.tasks.m[tid]))
  {
    hide Inv;
  }

  lemma {:induction false} DrainAdvances(codec: Codec, s: Sys, tid: nat, c: Choice)
    requires Inv(s) && Facts(codec, s) && AllOrNothing(s) && tid in s.tasks.m && s.tasks.m[tid].Draining?
    ensures Advances(codec, s, StepDrain(s, tid, s.tasks.m[tid], c), tid)
  {
    var t := s.tasks.m[tid];
    DrainSameTables(s, tid, c);
    if t.current.Idle? { DrainIdleForward(s, tid, c); }
    else if t.current.TakeExecuting? { TakeExecutingForward(s, tid, c); }
    else { DrainForward(s, tid, c); }
    AllPlannedCarry(codec, s, StepDrain(s, tid, t, c));
  }

  lemma {:induction false} CapabilityAdvances(codec: Codec, s: Sys, tid: nat)
    requires Inv(s) && Facts(codec, s) && AllOrNothing(s)
    requires tid in s.tasks.m && s.tasks.m[tid].HoldingCapability? && s.tasks.m[tid].gated
    ensures var t := s.tasks.m[tid]; Advances(codec, s, StepCapability(s, tid, t.gated, t.capability, t.onward), tid)
  {
    hide Facts;
    var t := s.tasks.m[tid];
    assert ConfirmOk(s, t) && WellFormed(t);
    CapabilityForward(s, tid);
    AllPlannedCarry(codec, s, StepCapability(s, tid, t.gated, t.capability, t.onward));
  }

  lemma {:induction false} PermitAdvances(codec: Codec, s: Sys, tid: nat, c: Choice)
    requires Inv(s) && Facts(codec, s) && AllOrNothing(s)
    requires tid in s.tasks.m && s.tasks.m[tid].HoldingPermit? && s.tasks.m[tid].gated
    ensures var t := s.tasks.m[tid]; Advances(codec, s, StepPermit(s, tid, t.gated, t.permit, t.after, c), tid)
  {
    hide Facts;
    var t := s.tasks.m[tid];
    assert ConfirmOk(s, t) && WellFormed(t);
    PermitForward(s, tid, c);
    AllPlannedCarry(codec, s, StepPermit(s, tid, t.gated, t.permit, t.after, c));
  }

  // ------------------------------------------------------------------ all steps

  lemma {:induction false} GatedAdvances(codec: Codec, s: Sys, tid: nat, c: Choice)
    requires Inv(s) && Facts(codec, s) && AllOrNothing(s) && tid in s.tasks.m && NeedsGate(s.tasks.m[tid])
    ensures Advances(codec, s, Continue(codec, s, tid, s.tasks.m[tid], c), tid)
  {
    hide Facts, ActionInv;
    assert WellFormed(s.tasks.m[tid]);
    match s.tasks.m[tid]
    case Bare(_, pc) =>
      if IsPlanPc(pc) { PlanStartAdvances(codec, s, tid, c); }
      else if IsReleasePc(pc) { ReleaseAdvances(codec, s, tid); }
      else if pc.ConfirmRecord? || pc.ConfirmEnqueue? { ConfirmRecordAdvances(codec, s, tid, c); }
      else { ConfirmOtherAdvances(codec, s, tid, c); }
    case HoldingPlan(_, at) =>
      if IsPlanning(at) { PlanAdvances(codec, s, tid, c); }
      else if at.ConfirmAuthorize? { AuthorizeAdvances(codec, s, tid, c); }
      else if at.ConfirmPrepare? { PrepareAdvances(codec, s, tid, c); }
      else { ConfirmPlanAdvances(codec, s, tid, c); }
    case HoldingCapability(_, _, _) => CapabilityAdvances(codec, s, tid);
    case HoldingPermit(_, _, _) => PermitAdvances(codec, s, tid, c);
    case Draining(_, _, _, _) => DrainAdvances(codec, s, tid, c);
  }

  lemma {:induction false} GatedKeeps(codec: Codec, s: Sys, s': Sys, tid: nat)
    requires Inv(s) && AllOrNothing(s) && tid in s.tasks.m && NeedsGate(s.tasks.m[tid])
    requires Advances(codec, s, s', tid)
    requires forall t | t in s'.tasks.m && t != tid :: t in s.tasks.m && s'.tasks.m[t] == s.tasks.m[t]
    ensures AllOrNothing(s')
  {
    forall t | t in s'.tasks.m ensures ConfirmOk(s', s'.tasks.m[t]) {
      if t != tid { UngatedOk(s', s.tasks.m[t]); }
    }
  }

  lemma {:induction false} UngatedUndisturbed(codec: Codec, s: Sys, tid: nat, c: Choice)
    requires Inv(s) && Facts(codec, s) && tid in s.tasks.m && !NeedsGate(s.tasks.m[tid])
    ensures UndisturbedBy(s, Continue(codec, s, tid, s.tasks.m[tid], c), tid)
  {
    hide Facts;
    assert WellFormed(s.tasks.m[tid]);
    if s.tasks.m[tid].Bare? {
      var pc := s.tasks.m[tid].pc;
      if pc.Arming? || pc.ArmRefuse? || pc.RejectRecord? { ArmOnUndisturbed(codec, s, tid); }
      else if IsArmPc(pc) { ArmTakeUndisturbed(codec, s, tid); }
      else if pc.CompleteTake? { CompleteTakeUndisturbed(s, tid, pc.session, pc.id, pc.succeeded); }
      else if pc.ReleaseQueue? { }
      else { ReconcileUndisturbed(s, tid, pc, c); }
    } else {
      TokenUndisturbed(codec, s, tid, c);
    }
  }

  lemma {:induction false} UngatedKeeps(codec: Codec, s: Sys, s': Sys, tid: nat)
    requires Inv(s) && Facts(codec, s) && AllOrNothing(s) && tid in s.tasks.m && !NeedsGate(s.tasks.m[tid])
    requires UndisturbedBy(s, s', tid) && Forward(s, s') && GateInv(s')
    requires forall t | t in s'.tasks.m && t != tid :: t in s.tasks.m && s'.tasks.m[t] == s.tasks.m[t]
    ensures AllOrNothing(s')
  {
    AllPlannedCarry(codec, s, s');
    forall t | t in s'.tasks.m ensures ConfirmOk(s', s'.tasks.m[t]) {
      if t == tid {
        UngatedOk(s', s'.tasks.m[t]);
      } else {
        UndisturbedCarries(s, s', s.tasks.m[t]);
      }
    }
  }

  lemma {:induction false} StartKeeps(codec: Codec, s: Sys, l: Label)
    requires Inv(s) && Facts(codec, s) && AllOrNothing(s)
    requires !l.Advance? && !l.EnqueuePublic? && !l.Restart?
    ensures AllOrNothing(Step(codec, s, l))
  {
    var s' := Step(codec, s, l);
    StartUndisturbed(codec, s, l);
    StartedOk(codec, s, l);
    AllPlannedCarry(codec, s, s');
    StartedTasksOk(s, s');
  }

  lemma {:induction false} StartUndisturbed(codec: Codec, s: Sys, l: Label)
    requires !l.Advance? && !l.EnqueuePublic? && !l.Restart?
    ensures Undisturbed(s, Step(codec, s, l)) && Forward(s, Step(codec, s, l))
  {
    assert Step(codec, s, l).place == s.place;
  }

  /** A handler that has only started owes nothing. */
  lemma {:induction false} StartedOk(codec: Codec, s: Sys, l: Label)
    requires !l.Advance? && !l.EnqueuePublic? && !l.Restart?
    ensures var s' := Step(codec, s, l);
            forall t | t in s'.tasks.m && !(t in s.tasks.m && s'.tasks.m[t] == s.tasks.m[t]) ::
              ConfirmOk(s', s'.tasks.m[t])
  {
  }

  lemma {:induction false} StartedTasksOk(s: Sys, s': Sys)
    requires AllOrNothing(s) && Undisturbed(s, s') && Forward(s, s')
    requires forall t | t in s'.tasks.m && !(t in s.tasks.m && s'.tasks.m[t] == s.tasks.m[t]) ::
               ConfirmOk(s', s'.tasks.m[t])
    ensures forall t | t in s'.tasks.m :: ConfirmOk(s', s'.tasks.m[t])
  {
    forall t | t in s'.tasks.m ensures ConfirmOk(s', s'.tasks.m[t]) {
      if t in s.tasks.m && s'.tasks.m[t] == s.tasks.m[t] { UndisturbedCarries(s, s', s.tasks.m[t]); }
    }
  }

  lemma {:induction false} EnqueueKeeps(codec: Codec, s: Sys, session: Uuid, kind: Kind)
    requires Inv(s) && Facts(codec, s) && AllOrNothing(s)
    ensures AllOrNothing(Step(codec, s, EnqueuePublic(session, kind)))
  {
    hide Inv, Facts;
    var s' := Step(codec, s, EnqueuePublic(session, kind));
    forall a: Uuid ensures PlannedOk(s', a) {
      assert PlannedOk(s, a);
      PlaceOfTabled(s, a);
    }
    forall a | a in s.place.m && Unsent(s, a) ensures Unsent(s', a) { PlaceOfTabled(s, a); }
    forall t | t in s'.tasks.m ensures ConfirmOk(s', s'.tasks.m[t]) {
      assert ConfirmOk(s, s.tasks.m[t]);
      EnqueueCarries(s, s', t);
    }
  }

  lemma {:induction false} EnqueueCarries(s: Sys, s': Sys, t: nat)
    requires Inv(s) && t in s.tasks.m && ConfirmOk(s, s.tasks.m[t])
    requires s'.place == s.place && s'.records == s.records && s'.lapsed == s.lapsed
    requires forall a | a in s.place.m && Unsent(s, a) :: Unsent(s', a)
    ensures ConfirmOk(s', s.tasks.m[t])
  {
    var task := s.tasks.m[t];
    if task.HoldingCapability? { PlaceOfHeld(s, t, task.capability.action); }
    if task.HoldingPermit? { PlaceOfHeld(s, t, task.permit.action); }
  }
}
