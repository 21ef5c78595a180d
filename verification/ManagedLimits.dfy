/** The journal stays valid and the tables stay within their capacity in every run. */
module ManagedLimits {
  import opened Common
  import opened ManagedPayload
  import opened Managed
  import opened ManagedAuthority
  import opened ManagedFacts
  import J = Journal
  import A = JournalApi

  // -------------------------------------------------------------- journal validity

  lemma {:induction false} ObservingKeepsValid(codec: Codec, s: Sys, tid: nat, c: Choice)
    requires A.Valid(s.journal) && tid in s.tasks.m && s.tasks.m[tid].Bare? && s.tasks.m[tid].pc.ReconcileSnapshot?
    ensures A.Valid(StepReconcile(s, tid, s.tasks.m[tid].pc, c).journal)
  {
    var pc := s.tasks.m[tid].pc;
    A.ObservationKeepsValid(s.journal, pc.observing,
      A.Snapshot(c.receiptId, pc.initial.authority.provider, pc.initial.authority.target, pc.observing.grant.cut),
      J.Append);
  }

  lemma {:induction false} ReceiptKeepsValid(codec: Codec, s: Sys, tid: nat, c: Choice)
    requires A.Valid(s.journal) && Facts(codec, s)
    requires tid in s.tasks.m && s.tasks.m[tid].Bare? && s.tasks.m[tid].pc.ReconcileReceipt?
    ensures A.Valid(StepReconcile(s, tid, s.tasks.m[tid].pc, c).journal)
  {
    hide Facts, J.AdmittedEnvelope, A.Consistent;
    var pc := s.tasks.m[tid].pc;
    TaskIsOk(codec, s, tid);
    var envelope := J.AdmittedEnvelope(s.journal.entries, pc.id);
    if envelope.Some? {
      var d := Draft(pc.observed, envelope.value.expected, Evidence(pc.initial.expected, c.verdicts));
      A.RecordKeepsValid(s.journal, pc.id,
        J.PostconditionRecorded(J.Receipt(d, (d.action, s.journal.nextSequence), s.journal.nextSequence)), true,
        J.Append);
    }
  }

  lemma {:induction false} BeginObservingKeepsValid(s: Sys, tid: nat, c: Choice)
    requires A.Valid(s.journal) && tid in s.tasks.m && s.tasks.m[tid].Bare? && s.tasks.m[tid].pc.ReconcileBegin?
    ensures A.Valid(StepReconcile(s, tid, s.tasks.m[tid].pc, c).journal)
  {
    A.BeginObservationKeepsValid(s.journal, s.tasks.m[tid].pc.id, s.minted, J.Append);
  }

  lemma {:induction false} BareKeepsValid(codec: Codec, s: Sys, tid: nat, c: Choice)
    requires A.Valid(s.journal) && Facts(codec, s) && tid in s.tasks.m && s.tasks.m[tid].Bare?
    ensures A.Valid(Continue(codec, s, tid, s.tasks.m[tid], c).journal)
  {
    hide Inv, Facts, J.AdmittedEnvelope;
    var pc := s.tasks.m[tid].pc;
    if pc.ReconcileBegin? { BeginObservingKeepsValid(s, tid, c); }
    else if pc.ReconcileSnapshot? { ObservingKeepsValid(codec, s, tid, c); }
    else if pc.ReconcileReceipt? { ReceiptKeepsValid(codec, s, tid, c); }
    else if pc.ReconcileCommit? { A.RecordKeepsValid(s.journal, pc.id, J.Committed, c.ok, J.Append); }
    else { SameJournalOtherwise(codec, s, tid, c); }
  }

  /** No other token-free step touches the journal. */
  lemma {:induction false} SameJournalOtherwise(codec: Codec, s: Sys, tid: nat, c: Choice)
    requires tid in s.tasks.m && s.tasks.m[tid].Bare?
    requires var pc := s.tasks.m[tid].pc;
             !pc.ReconcileBegin? && !pc.ReconcileSnapshot? && !pc.ReconcileReceipt? && !pc.ReconcileCommit?
    ensures Continue(codec, s, tid, s.tasks.m[tid], c).journal == s.journal
  {
  }

  lemma {:induction false} PlanKeepsValid(codec: Codec, s: Sys, tid: nat, c: Choice)
    requires A.Valid(s.journal) && tid in s.tasks.m && s.tasks.m[tid].HoldingPlan?
    ensures A.Valid(Continue(codec, s, tid, s.tasks.m[tid], c).journal)
  {
    var p := s.tasks.m[tid].plan;
    var at := s.tasks.m[tid].at;
    var a := p.action.id;
    match at
    case PlanIntent => A.RecordKeepsValid(s.journal, a, J.IntentAdmitted(p.envelope), c.ok, J.Append);
    case ConfirmAuthorize =>
      A.RecordKeepsValid(s.journal, a, J.AuthorizationRecorded(p.envelope.authorizationRevision, true), c.ok, J.Append);
    case ConfirmPrepare(sequence) =>
      A.PrepareKeepsValid(s.journal, a, J.PreparationReceipt("dispatch-prepared", sequence, p.envelope.preconditionCut,
                                                             p.envelope.provider, p.envelope.target), c.ok, s.minted,
                          J.Append);
    case _ =>
  }

  lemma {:induction false} DrainKeepsValid(s: Sys, tid: nat, c: Choice)
    requires A.Valid(s.journal) && tid in s.tasks.m && s.tasks.m[tid].Draining?
    ensures A.Valid(StepDrain(s, tid, s.tasks.m[tid], c).journal)
  {
    var t := s.tasks.m[tid];
    match t.current
    case Beginning(capability) => A.BeginKeepsValid(s.journal, capability, s.minted, J.Append);
    case Refusing(permit) => A.LinearizeKeepsValid(s.journal, permit, J.NotDispatched, c.ok, s.minted, J.Append);
    case Idle => if c.pick in t.permits { A.AbandonKeepsValid(s.journal, t.permits[c.pick], J.Append); }
    case TakeExecuting =>
  }

  lemma {:induction false} HoldingKeepsValid(codec: Codec, s: Sys, tid: nat, c: Choice)
    requires A.Valid(s.journal) && tid in s.tasks.m && !s.tasks.m[tid].Bare?
    ensures A.Valid(Continue(codec, s, tid, s.tasks.m[tid], c).journal)
  {
    hide A.Consistent;
    match s.tasks.m[tid]
    case HoldingPlan(_, _) => PlanKeepsValid(codec, s, tid, c);
    case HoldingCapability(_, capability, _) => A.BeginKeepsValid(s.journal, capability, s.minted, J.Append);
    case HoldingPermit(_, permit, _) =>
      A.LinearizeKeepsValid(s.journal, permit, J.NotDispatched, c.ok, s.minted, J.Append);
    case Completing(permit, succeeded) =>
      var result := if succeeded then J.DispatchedFull else J.DispatchAmbiguous;
      A.LinearizeKeepsValid(s.journal, permit, result, c.ok, s.minted, J.Append);
    case Draining(_, _, _, _) => DrainKeepsValid(s, tid, c);
  }

  lemma {:induction false} StepKeepsValid(codec: Codec, s: Sys, l: Label)
    requires A.Valid(s.journal) && Facts(codec, s)
    ensures A.Valid(Step(codec, s, l).journal)
  {
    hide Facts;
    match l
    case Advance(tid, c) =>
      if tid in s.tasks.m {
        if s.tasks.m[tid].Bare? { BareKeepsValid(codec, s, tid, c); } else { HoldingKeepsValid(codec, s, tid, c); }
      }
    case Restart(_) => A.ReopenKeepsValid(s.journal, s.minted, J.Append);
    case _ =>
  }

  // -------------------------------------------------------------------- capacity

  /** A plan handler past its capacity check. */
  predicate PendingRoom(t: Task) {
    || (t.Bare? && t.pc.PlanBind?)
    || (t.HoldingPlan? && IsPlanning(t.at))
  }

  /** A confirm handler past its capacity check that has not inserted its record. */
  predicate RecordRoom(t: Task) {
    || (t.HoldingPlan? && (t.at.ConfirmMaterialize? || t.at.ConfirmAuthorize? || t.at.ConfirmPrepare?))
    || (t.HoldingCapability? && t.onward.ConfirmStash?)
    || (t.Bare? && t.pc.ConfirmRecord?)
  }

  ghost predicate WithinCapacity(s: Sys) {
    && |s.pending.m| <= MAX_PENDING && |s.records.m| <= MAX_RECORDS
    && (forall t | t in s.tasks.m ::
          && (PendingRoom(s.tasks.m[t]) ==> |s.pending.m| < MAX_PENDING)
          && (RecordRoom(s.tasks.m[t]) ==> |s.records.m| < MAX_RECORDS))
  }

  /** Only handlers with room add to a table, and they use their room up by adding. */
  ghost predicate Grows(s: Sys, s': Sys, tid: nat) {
    && tid in s.tasks.m
    && (|s'.pending.m| <= |s.pending.m| ||
          (|s'.pending.m| <= |s.pending.m| + 1 && PendingRoom(s.tasks.m[tid])
           && !(tid in s'.tasks.m && PendingRoom(s'.tasks.m[tid]))))
    && (|s'.records.m| <= |s.records.m| ||
          (|s'.records.m| <= |s.records.m| + 1 && RecordRoom(s.tasks.m[tid])
           && !(tid in s'.tasks.m && RecordRoom(s'.tasks.m[tid]))))
    && (if tid in s'.tasks.m then s'.tasks == s.tasks.With(tid, s'.tasks.m[tid])
        else s'.tasks == s.tasks.Without({tid}))
    && (tid in s'.tasks.m && PendingRoom(s'.tasks.m[tid]) ==>
         PendingRoom(s.tasks.m[tid]) || |s.pending.m| < MAX_PENDING)
    && (tid in s'.tasks.m && RecordRoom(s'.tasks.m[tid]) ==> RecordRoom(s.tasks.m[tid]) || |s.records.m| < MAX_RECORDS)
  }

  lemma {:induction false} GrowsKeeps(s: Sys, s': Sys, tid: nat)
    requires WithinCapacity(s) && GateInv(s) && Grows(s, s', tid)
    ensures WithinCapacity(s')
  {
    assert PendingRoom(s.tasks.m[tid]) || RecordRoom(s.tasks.m[tid]) ==> WellFormed(s.tasks.m[tid]);
    forall t | t in s'.tasks.m
      ensures PendingRoom(s'.tasks.m[t]) ==> |s'.pending.m| < MAX_PENDING
      ensures RecordRoom(s'.tasks.m[t]) ==> |s'.records.m| < MAX_RECORDS
    {
      if t != tid {
        assert t in s.tasks.m && s'.tasks.m[t] == s.tasks.m[t] && WellFormed(s.tasks.m[t]);
      }
    }
  }

  lemma {:induction false} PlanGrows(codec: Codec, s: Sys, tid: nat, c: Choice)
    requires tid in s.tasks.m && s.tasks.m[tid].Bare? && IsPlanPc(s.tasks.m[tid].pc) && !s.tasks.m[tid].pc.PlanBind?
    ensures Grows(s, StepPlanStart(codec, s, tid, s.tasks.m[tid].pc, c), tid)
  {
    var gone := s.pending.m.Keys * c.expired;
    RestrictedSize(s.pending.m, s.pending.m - gone);
    RestrictedSize(s.records.m, s.records.m - c.expired);
  }

  lemma {:induction false} PlanBindGrows(codec: Codec, s: Sys, tid: nat, c: Choice)
    requires tid in s.tasks.m && s.tasks.m[tid].Bare? && s.tasks.m[tid].pc.PlanBind?
    ensures Grows(s, StepPlanStart(codec, s, tid, s.tasks.m[tid].pc, c), tid)
  {
  }

  /** Steps that add to no table and turn into a task without room. */
  lemma {:induction false} StillWithin(s: Sys, s': Sys, tid: nat)
    requires tid in s.tasks.m && s'.pending.m.Keys <= s.pending.m.Keys && s'.records.m.Keys <= s.records.m.Keys
    requires if tid in s'.tasks.m
             then s'.tasks == s.tasks.With(tid, s'.tasks.m[tid]) && !PendingRoom(s'.tasks.m[tid])
                  && !RecordRoom(s'.tasks.m[tid])
             else s'.tasks == s.tasks.Without({tid})
    ensures Grows(s, s', tid)
  {
    RestrictedSize(s.pending.m, s'.pending.m);
    RestrictedSize(s.records.m, s'.records.m);
  }

  lemma {:induction false} HoldingPlanGrows(codec: Codec, s: Sys, tid: nat, c: Choice)
    requires tid in s.tasks.m && s.tasks.m[tid].HoldingPlan?
    requires IsPlanning(s.tasks.m[tid].at)
    ensures Grows(s, StepPlan(s, tid, s.tasks.m[tid].plan, s.tasks.m[tid].at, c), tid)
  {
    var t := s.tasks.m[tid];
    UpdatedSize(s.pending.m, t.plan.action.id, t.plan);
  }

  lemma {:induction false} ConfirmCheckGrows(codec: Codec, s: Sys, tid: nat, c: Choice)
    requires tid in s.tasks.m && s.tasks.m[tid].HoldingPlan? && s.tasks.m[tid].at.ConfirmCheck?
    ensures Grows(s, StepConfirmPlan(codec, s, tid, s.tasks.m[tid].plan, ConfirmCheck, c), tid)
  {
    hide SurfaceIs, Materialize, A.Record, A.RecordPrepared, BindingFor;
  }

  lemma {:induction false} ConfirmPruneGrows(codec: Codec, s: Sys, tid: nat, c: Choice)
    requires tid in s.tasks.m && s.tasks.m[tid].HoldingPlan? && s.tasks.m[tid].at.ConfirmPrune?
    ensures Grows(s, StepConfirmPlan(codec, s, tid, s.tasks.m[tid].plan, ConfirmPrune, c), tid)
  {
    hide SurfaceIs, Materialize, A.Record, A.RecordPrepared, BindingFor;
    RestrictedSize(s.records.m, s.records.m - c.expired);
  }

  lemma {:induction false} ConfirmCapacityGrows(codec: Codec, s: Sys, tid: nat, c: Choice)
    requires tid in s.tasks.m && s.tasks.m[tid].HoldingPlan? && s.tasks.m[tid].at.ConfirmCapacity?
    ensures Grows(s, StepConfirmPlan(codec, s, tid, s.tasks.m[tid].plan, ConfirmCapacity, c), tid)
  {
    hide SurfaceIs, Materialize, A.Record, A.RecordPrepared, BindingFor;
  }

  lemma {:induction false} ConfirmJournalGrows(codec: Codec, s: Sys, tid: nat, c: Choice)
    requires tid in s.tasks.m && s.tasks.m[tid].HoldingPlan?
    requires var at := s.tasks.m[tid].at; at.ConfirmMaterialize? || at.ConfirmAuthorize? || at.ConfirmPrepare?
    ensures Grows(s, StepConfirmPlan(codec, s, tid, s.tasks.m[tid].plan, s.tasks.m[tid].at, c), tid)
  {
    hide Materialize, A.Record, A.RecordPrepared, SurfaceIs;
  }

  lemma {:induction false} ConfirmGrows(s: Sys, tid: nat, c: Choice)
    requires tid in s.tasks.m && s.tasks.m[tid].Bare? && IsConfirmPc(s.tasks.m[tid].pc)
    ensures Grows(s, StepConfirm(s, tid, s.tasks.m[tid].pc, c), tid)
  {
    hide Grows;
    var pc := s.tasks.m[tid].pc;
    if pc.ConfirmRecord? {
      ConfirmRecordGrows(s, tid, c);
    } else {
      StillWithin(s, StepConfirm(s, tid, pc, c), tid);
    }
  }

  lemma {:induction false} ConfirmRecordGrows(s: Sys, tid: nat, c: Choice)
    requires tid in s.tasks.m && s.tasks.m[tid].Bare? && s.tasks.m[tid].pc.ConfirmRecord?
    ensures Grows(s, StepConfirm(s, tid, s.tasks.m[tid].pc, c), tid)
  {
    var p := s.tasks.m[tid].pc.plan;
    UpdatedSize(s.records.m, p.action.id, Record(p.action.session, p.authority, p.envelope.expected, PendingExecutor));
  }

  lemma {:induction false} ReleaseGrows(s: Sys, tid: nat)
    requires tid in s.tasks.m && s.tasks.m[tid].Bare? && IsReleasePc(s.tasks.m[tid].pc)
    ensures Grows(s, StepRelease(s, tid, s.tasks.m[tid].pc), tid)
  {
    StillWithin(s, StepRelease(s, tid, s.tasks.m[tid].pc), tid);
  }

  lemma {:induction false} ArmSnapshotGrows(codec: Codec, s: Sys, tid: nat)
    requires tid in s.tasks.m && s.tasks.m[tid].Bare? && s.tasks.m[tid].pc.ArmSnapshot?
    ensures Grows(s, StepArm(codec, s, tid, s.tasks.m[tid].pc), tid)
  {
    StillWithin(s, StepArm(codec, s, tid, s.tasks.m[tid].pc), tid);
  }

  lemma {:induction false} ArmTakeGrows(codec: Codec, s: Sys, tid: nat)
    requires tid in s.tasks.m && s.tasks.m[tid].Bare? && s.tasks.m[tid].pc.ArmTake?
    ensures Grows(s, StepArm(codec, s, tid, s.tasks.m[tid].pc), tid)
  {
    hide Grows, SetStatus, VerifiedAtDispatch, Onward;
    StillWithin(s, StepArm(codec, s, tid, s.tasks.m[tid].pc), tid);
  }

  lemma {:induction false} RejectTakeGrows(codec: Codec, s: Sys, tid: nat)
    requires tid in s.tasks.m && s.tasks.m[tid].Bare? && s.tasks.m[tid].pc.RejectTake?
    ensures Grows(s, StepArm(codec, s, tid, s.tasks.m[tid].pc), tid)
  {
    hide Grows, SetStatus, VerifiedAtDispatch, Onward;
    StillWithin(s, StepArm(codec, s, tid, s.tasks.m[tid].pc), tid);
  }

  lemma {:induction false} ArmingGrows(codec: Codec, s: Sys, tid: nat)
    requires tid in s.tasks.m && s.tasks.m[tid].Bare? && s.tasks.m[tid].pc.Arming?
    ensures Grows(s, StepArm(codec, s, tid, s.tasks.m[tid].pc), tid)
  {
    hide VerifiedAtDispatch, SetStatus, Onward;
    var b := s.tasks.m[tid].pc.batch;
    if b.head.id !in b.tracked { OnwardGrows(s, s.(log := s.log + [Delivered(b.head, false)]), tid, b); }
    else { StillWithin(s, StepArm(codec, s, tid, s.tasks.m[tid].pc), tid); }
  }

  lemma {:induction false} OnwardGrows(s: Sys, s1: Sys, tid: nat, b: Batch)
    requires tid in s.tasks.m && s1.pending == s.pending && s1.records == s.records && s1.tasks == s.tasks
    ensures Grows(s, Onward(s1, tid, b), tid)
  {
    StillWithin(s, Onward(s1, tid, b), tid);
  }

  lemma {:induction false} ArmGivesUpGrows(codec: Codec, s: Sys, tid: nat)
    requires tid in s.tasks.m && s.tasks.m[tid].Bare?
    requires s.tasks.m[tid].pc.ArmRefuse? || s.tasks.m[tid].pc.RejectRecord?
    ensures Grows(s, StepArm(codec, s, tid, s.tasks.m[tid].pc), tid)
  {
    hide VerifiedAtDispatch;
    StillWithin(s, StepArm(codec, s, tid, s.tasks.m[tid].pc), tid);
  }

  lemma {:induction false} BeginGrows(s: Sys, tid: nat, c: Choice)
    requires tid in s.tasks.m && s.tasks.m[tid].Bare?
    requires s.tasks.m[tid].pc.ReconcileBefore? || s.tasks.m[tid].pc.ReconcileBegin?
    ensures Grows(s, StepReconcile(s, tid, s.tasks.m[tid].pc, c), tid)
  {
    hide Inv, A.RecordPostcondition;
    StillWithin(s, StepReconcile(s, tid, s.tasks.m[tid].pc, c), tid);
  }

  lemma {:induction false} ObserveGrows(s: Sys, tid: nat, c: Choice)
    requires tid in s.tasks.m && s.tasks.m[tid].Bare? && s.tasks.m[tid].pc.ReconcileSnapshot?
    ensures Grows(s, StepReconcile(s, tid, s.tasks.m[tid].pc, c), tid)
  {
    hide Inv;
    StillWithin(s, StepReconcile(s, tid, s.tasks.m[tid].pc, c), tid);
  }

  lemma {:induction false} ReceiptGrows(s: Sys, tid: nat, c: Choice)
    requires tid in s.tasks.m && s.tasks.m[tid].Bare? && s.tasks.m[tid].pc.ReconcileReceipt?
    ensures Grows(s, StepReconcile(s, tid, s.tasks.m[tid].pc, c), tid)
  {
    hide Inv;
    StillWithin(s, StepReconcile(s, tid, s.tasks.m[tid].pc, c), tid);
  }

  lemma {:induction false} ConcludeGrows(s: Sys, tid: nat, c: Choice)
    requires tid in s.tasks.m && s.tasks.m[tid].Bare?
    requires s.tasks.m[tid].pc.ReconcileCommit? || s.tasks.m[tid].pc.ReconcileFinish?
    ensures Grows(s, StepReconcile(s, tid, s.tasks.m[tid].pc, c), tid)
  {
    hide Inv;
    StillWithin(s, StepReconcile(s, tid, s.tasks.m[tid].pc, c), tid);
  }

  lemma {:induction false} DrainGrows(s: Sys, tid: nat, c: Choice)
    requires tid in s.tasks.m && s.tasks.m[tid].Draining?
    requires s.tasks.m[tid].current.Beginning? || s.tasks.m[tid].current.Refusing?
    ensures Grows(s, StepDrain(s, tid, s.tasks.m[tid], c), tid)
  {
    StillWithin(s, StepDrain(s, tid, s.tasks.m[tid], c), tid);
  }

  lemma {:induction false} DrainTakeGrows(s: Sys, tid: nat, c: Choice)
    requires tid in s.tasks.m && s.tasks.m[tid].Draining? && s.tasks.m[tid].current.TakeExecuting?
    ensures Grows(s, StepDrain(s, tid, s.tasks.m[tid], c), tid)
  {
    StillWithin(s, StepDrain(s, tid, s.tasks.m[tid], c), tid);
  }

  lemma {:induction false} DrainIdleGrows(s: Sys, tid: nat, c: Choice)
    requires tid in s.tasks.m && s.tasks.m[tid].Draining? && s.tasks.m[tid].current.Idle?
    ensures StepDrain(s, tid, s.tasks.m[tid], c) == s || Grows(s, StepDrain(s, tid, s.tasks.m[tid], c), tid)
  {
    hide A.AbandonDispatch;
    var t := s.tasks.m[tid];
    var s' := StepDrain(s, tid, t, c);
    if c.pick in t.capabilities {
      StillWithin(s, s', tid);
    } else if t.capabilities == map[] && c.pick in t.permits {
      StillWithin(s, s', tid);
    } else if t.capabilities == map[] && t.permits == map[] {
      StillWithin(s, s', tid);
    } else {
      assert s' == s;
    }
  }

  lemma {:induction false} TokenGrows(codec: Codec, s: Sys, tid: nat, c: Choice)
    requires GateInv(s) && tid in s.tasks.m
    requires s.tasks.m[tid].HoldingCapability? || s.tasks.m[tid].HoldingPermit? || s.tasks.m[tid].Completing?
    ensures Grows(s, Continue(codec, s, tid, s.tasks.m[tid], c), tid)
  {
    assert WellFormed(s.tasks.m[tid]);
    match s.tasks.m[tid]
    case HoldingCapability(_, _, onward) =>
      if onward.ConfirmStash? { StashGrows(s, tid); } else { CapabilityGrows(s, tid); }
    case HoldingPermit(_, _, _) => PermitGrows(s, tid, c);
    case Completing(_, _) => CompletingGrows(s, tid, c);
  }

  lemma {:induction false} CapabilityGrows(s: Sys, tid: nat)
    requires tid in s.tasks.m && s.tasks.m[tid].HoldingCapability? && !s.tasks.m[tid].onward.ConfirmStash?
    requires WellFormed(s.tasks.m[tid])
    ensures var t := s.tasks.m[tid]; Grows(s, StepCapability(s, tid, t.gated, t.capability, t.onward), tid)
  {
    var t := s.tasks.m[tid];
    StillWithin(s, StepCapability(s, tid, t.gated, t.capability, t.onward), tid);
  }

  lemma {:induction false} PermitGrows(s: Sys, tid: nat, c: Choice)
    requires tid in s.tasks.m && s.tasks.m[tid].HoldingPermit? && WellFormed(s.tasks.m[tid])
    ensures var t := s.tasks.m[tid]; Grows(s, StepPermit(s, tid, t.gated, t.permit, t.after, c), tid)
  {
    var t := s.tasks.m[tid];
    StillWithin(s, StepPermit(s, tid, t.gated, t.permit, t.after, c), tid);
  }

  lemma {:induction false} CompletingGrows(s: Sys, tid: nat, c: Choice)
    requires tid in s.tasks.m && s.tasks.m[tid].Completing?
    ensures var t := s.tasks.m[tid]; Grows(s, StepCompleting(s, tid, t.permit, t.succeeded, c), tid)
  {
    var t := s.tasks.m[tid];
    StillWithin(s, StepCompleting(s, tid, t.permit, t.succeeded, c), tid);
  }

  lemma {:induction false} StashGrows(s: Sys, tid: nat)
    requires tid in s.tasks.m && s.tasks.m[tid].HoldingCapability? && s.tasks.m[tid].onward.ConfirmStash?
    ensures var t := s.tasks.m[tid]; Grows(s, StepCapability(s, tid, t.gated, t.capability, t.onward), tid)
  {
  }

  lemma {:induction false} BareGrows(codec: Codec, s: Sys, tid: nat, c: Choice)
    requires tid in s.tasks.m && s.tasks.m[tid].Bare?
    ensures Grows(s, Continue(codec, s, tid, s.tasks.m[tid], c), tid)
  {
    var pc := s.tasks.m[tid].pc;
    if pc.PlanBind? { PlanBindGrows(codec, s, tid, c); }
    else if IsPlanPc(pc) { PlanGrows(codec, s, tid, c); }
    else if IsReleasePc(pc) { ReleaseGrows(s, tid); }
    else if pc.ArmSnapshot? { ArmSnapshotGrows(codec, s, tid); }
    else if pc.Arming? { ArmingGrows(codec, s, tid); }
    else if pc.ArmRefuse? || pc.RejectRecord? { ArmGivesUpGrows(codec, s, tid); }
    else if pc.ArmTake? { ArmTakeGrows(codec, s, tid); }
    else if pc.RejectTake? { RejectTakeGrows(codec, s, tid); }
    else if pc.CompleteTake? { StillWithin(s, StepCompleteTake(s, tid, pc.session, pc.id, pc.succeeded), tid); }
    else if IsConfirmPc(pc) { ConfirmGrows(s, tid, c); }
    else if pc.ReconcileBefore? || pc.ReconcileBegin? { BeginGrows(s, tid, c); }
    else if pc.ReconcileSnapshot? { ObserveGrows(s, tid, c); }
    else if pc.ReconcileReceipt? { ReceiptGrows(s, tid, c); }
    else { ConcludeGrows(s, tid, c); }
  }

  lemma {:induction false} HoldingGrows(codec: Codec, s: Sys, tid: nat, c: Choice)
    requires GateInv(s) && tid in s.tasks.m && !s.tasks.m[tid].Bare?
    ensures var s' := Continue(codec, s, tid, s.tasks.m[tid], c); s' == s || Grows(s, s', tid)
  {
    match s.tasks.m[tid]
    case HoldingPlan(_, at) =>
      if IsPlanning(at) { HoldingPlanGrows(codec, s, tid, c); }
      else if at.ConfirmCheck? { ConfirmCheckGrows(codec, s, tid, c); }
      else if at.ConfirmPrune? { ConfirmPruneGrows(codec, s, tid, c); }
      else if at.ConfirmCapacity? { ConfirmCapacityGrows(codec, s, tid, c); }
      else { ConfirmJournalGrows(codec, s, tid, c); }
    case Draining(_, _, _, current) =>
      if current.Idle? { DrainIdleGrows(s, tid, c); }
      else if current.TakeExecuting? { DrainTakeGrows(s, tid, c); }
      else { DrainGrows(s, tid, c); }
    case _ => TokenGrows(codec, s, tid, c);
  }

  /** Spawning a handler leaves both tables alone, and a new handler has found no room yet. */
  lemma {:induction false} SpawnWithin(s: Sys, gated: bool, pc: Pc)
    requires WithinCapacity(s) && GateInv(s) && !PendingRoom(Bare(gated, pc)) && !RecordRoom(Bare(gated, pc))
    ensures WithinCapacity(Spawn(s, gated, pc))
  {
  }

  lemma {:induction false} FewerWithin(s: Sys, s': Sys)
    requires WithinCapacity(s) && s'.tasks == s.tasks
    requires s'.pending == s.pending && s'.records.m.Keys <= s.records.m.Keys
    ensures WithinCapacity(s')
  {
    RestrictedSize(s.records.m, s'.records.m);
  }

  /** Steps that advance no handler add to no table. */
  lemma {:induction false} StartWithin(codec: Codec, s: Sys, l: Label)
    requires WithinCapacity(s) && GateInv(s) && !l.Advance? && !l.Restart?
    ensures WithinCapacity(Step(codec, s, l))
  {
    hide Continue, WithinCapacity, GateInv, Spawn;
    match l
    case StartPlan(r) => SpawnWithin(s, true, PlanPrunePending(r));
    case StartConfirm(session, a, confirmation) => SpawnWithin(s, true, ConfirmConsume(session, a, confirmation));
    case StartRelease(session) => SpawnWithin(s, true, ReleasePending(session));
    case StartArm(session) =>
      var s0 := s.(queue := RemainderOf(s.queue, session, TAKE_LIMIT));
      FewerWithin(s, s0);
      SameGates(s, s0);
      SpawnWithin(s0, false, ArmSnapshot(session, TakenOf(s.queue, session, TAKE_LIMIT)));
    case StartComplete(session, a, succeeded) => SpawnWithin(s, false, CompleteTake(session, a, succeeded));
    case StartReconcile(session, a) =>
      if a in s.records.m {
        FewerWithin(s, SetStatus(s, a, PendingReconciliation));
        SameGates(s, SetStatus(s, a, PendingReconciliation));
        SpawnWithin(SetStatus(s, a, PendingReconciliation), false, ReconcileBefore(a, s.records.m[a]));
      }
    case _ => FewerWithin(s, Step(codec, s, l));
  }

  lemma SameGates(s: Sys, s': Sys)
    requires GateInv(s) && s'.tasks == s.tasks && s'.gate == s.gate && s'.minted == s.minted
    ensures GateInv(s')
  {
  }

  lemma {:induction false} RestartWithin(codec: Codec, s: Sys, keyAvailable: bool)
    ensures WithinCapacity(Step(codec, s, Restart(keyAvailable)))
  {
  }

  lemma {:induction false} StepWithin(codec: Codec, s: Sys, l: Label)
    requires WithinCapacity(s) && GateInv(s)
    ensures WithinCapacity(Step(codec, s, l))
  {
    if l.Advance? {
      var tid, c := l.task, l.choice;
      if tid in s.tasks.m {
        if s.tasks.m[tid].Bare? { BareGrows(codec, s, tid, c); } else { HoldingGrows(codec, s, tid, c); }
        var s' := Continue(codec, s, tid, s.tasks.m[tid], c);
        if s' != s { GrowsKeeps(s, s', tid); }
      }
    } else {
      if l.Restart? { RestartWithin(codec, s, l.keyAvailable); } else { StartWithin(codec, s, l); }
    }
  }
}
