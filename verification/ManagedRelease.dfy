/** What a release leaves of its session, whatever runs beside it, and that it leaves other sessions alone. */
module ManagedRelease {
  import opened Common
  import opened ManagedPayload
  import opened Managed
  import opened ManagedAuthority
  import opened ManagedNarrative
  import opened ManagedTheorems
  import A = JournalApi

  predicate NoPlan(s: Sys, session: Uuid) { forall a | a in s.pending.m :: s.pending.m[a].action.session != session }

  predicate NoCapability(s: Sys, session: Uuid) { forall a | a in s.prepared.m :: s.prepared.m[a].session != session }

  predicate NoPermit(s: Sys, session: Uuid) { forall a | a in s.executing.m :: s.executing.m[a].session != session }

  /** A release that has dealt with the plans of its session, and then with its capabilities. */
  predicate Cleared(s: Sys, t: Task) {
    && (t.Bare? && t.pc.ReleasePrepared? ==> NoPlan(s, t.pc.session))
    && (t.Draining? ==> NoPlan(s, t.session) && NoCapability(s, t.session))
  }

  ghost predicate AllCleared(s: Sys) { forall t | t in s.tasks.m :: Cleared(s, s.tasks.m[t]) }

  // ------------------------------------------------------------- who adds to a table

  ghost predicate AddsNothing(s: Sys, s': Sys) {
    s'.pending == s.pending && forall a | a in s'.prepared.m :: a in s.prepared.m && s'.prepared.m[a] == s.prepared.m[a]
  }

  lemma {:induction false} ArmAddsNothing(codec: Codec, s: Sys, tid: nat, pc: Pc)
    ensures AddsNothing(s, StepArm(codec, s, tid, pc))
  {
    hide VerifiedAtDispatch;
  }

  lemma {:induction false} ReconcileAddsNothing(s: Sys, tid: nat, pc: Pc, c: Choice)
    ensures AddsNothing(s, StepReconcile(s, tid, pc, c))
  {
    hide A.BeginObservation, A.AbandonObservation, A.CompleteObservation, A.RecordPostcondition, A.Record, Draft;
    hide SurfaceIs, LineageMatches;
  }

  lemma {:induction false} TokenAddsNothing(s: Sys, tid: nat, t: Task, c: Choice)
    ensures t.HoldingCapability? && !t.onward.ConfirmStash? ==>
              AddsNothing(s, StepCapability(s, tid, t.gated, t.capability, t.onward))
    ensures t.HoldingPermit? ==> AddsNothing(s, StepPermit(s, tid, t.gated, t.permit, t.after, c))
    ensures t.Completing? ==> AddsNothing(s, StepCompleting(s, tid, t.permit, t.succeeded, c))
  {
    hide A.BeginDispatch, A.Linearize;
  }

  /** Only plan and confirm add to these two tables, and they are gated. */
  lemma {:induction false} UngatedAddsNothing(codec: Codec, s: Sys, tid: nat, c: Choice)
    requires Inv(s) && tid in s.tasks.m && !NeedsGate(s.tasks.m[tid])
    ensures AddsNothing(s, Continue(codec, s, tid, s.tasks.m[tid], c))
  {
    hide Inv, AddsNothing, StepArm, StepReconcile, StepCapability, StepPermit, StepCompleting;
    var t := s.tasks.m[tid];
    FormOf(s, tid);
    if t.Bare? {
      ArmAddsNothing(codec, s, tid, t.pc);
      ReconcileAddsNothing(s, tid, t.pc, c);
      QueueAddsNothing(s, tid, t.pc);
    } else {
      TokenAddsNothing(s, tid, t, c);
    }
  }

  lemma {:induction false} QueueAddsNothing(s: Sys, tid: nat, pc: Pc)
    ensures pc.ReleaseQueue? ==> AddsNothing(s, StepRelease(s, tid, pc))
    ensures pc.CompleteTake? ==> AddsNothing(s, StepCompleteTake(s, tid, pc.session, pc.id, pc.succeeded))
  {
  }

  lemma FormOf(s: Sys, tid: nat)
    requires Inv(s) && tid in s.tasks.m
    ensures WellFormed(s.tasks.m[tid]) && (NeedsGate(s.tasks.m[tid]) ==> s.gate == Some(tid))
  {
  }

  // ---------------------------------------------------------------- the release itself

  predicate Releases(t: Task) { t.Draining? || (t.Bare? && IsReleasePc(t.pc)) }

  function SessionOf(t: Task): Uuid
    requires Releases(t)
  {
    if t.Draining? then t.session else t.pc.session
  }

  /** Entries of other sessions stay as they are, and nothing is added. */
  ghost predicate Spares<V>(m: Table<V>, m': Table<V>, of: V -> Uuid, session: Uuid) {
    && (forall a | a in m'.m :: a in m.m && m'.m[a] == m.m[a])
    && (forall a | a in m.m && of(m.m[a]) != session :: a in m'.m)
  }

  ghost predicate SparesOthers(s: Sys, s': Sys, session: Uuid) {
    && Spares(s.pending, s'.pending, (p: Plan) => p.action.session, session)
    && Spares(s.prepared, s'.prepared, (d: PreparedDispatch) => d.session, session)
    && Spares(s.executing, s'.executing, (d: ExecutingDispatch) => d.session, session)
    && Spares(s.records, s'.records, (r: Record) => r.session, session)
  }

  lemma {:induction false} DrainSpares(s: Sys, tid: nat, t: Task, c: Choice)
    requires t.Draining?
    ensures SparesOthers(s, StepDrain(s, tid, t, c), t.session)
  {
    hide A.BeginDispatch, A.Linearize, A.AbandonDispatch;
  }

  /** A step of a release takes nothing from another session. */
  lemma {:induction false} ReleaseSpares(codec: Codec, s: Sys, tid: nat, c: Choice)
    requires tid in s.tasks.m && Releases(s.tasks.m[tid])
    ensures SparesOthers(s, Step(codec, s, Advance(tid, c)), SessionOf(s.tasks.m[tid]))
  {
    hide StepDrain;
    var t := s.tasks.m[tid];
    if t.Draining? { DrainSpares(s, tid, t, c); }
  }

  /** What its own step clears: the plans, then the capabilities, then the permits. */
  lemma {:induction false} ReleaseStepClears(codec: Codec, s: Sys, tid: nat, c: Choice)
    requires Inv(s) && AllCleared(s) && tid in s.tasks.m && Releases(s.tasks.m[tid]) && NeedsGate(s.tasks.m[tid])
    ensures var s' := Continue(codec, s, tid, s.tasks.m[tid], c);
            tid in s'.tasks.m ==> Cleared(s', s'.tasks.m[tid])
    ensures var t := s.tasks.m[tid];
            t.Draining? && t.current.TakeExecuting? ==>
              NoPermit(Continue(codec, s, tid, t, c), t.session)
  {
    hide Inv, StepDrain;
    var t := s.tasks.m[tid];
    assert Cleared(s, t);
    if t.Draining? { DrainClears(s, tid, t, c); }
  }

  lemma {:induction false} DrainClears(s: Sys, tid: nat, t: Task, c: Choice)
    requires t.Draining? && Cleared(s, t) && tid in s.tasks.m && s.tasks.m[tid] == t
    ensures var s' := StepDrain(s, tid, t, c);
            && s'.pending == s.pending && s'.prepared == s.prepared
            && (tid in s'.tasks.m && s'.tasks.m[tid].Draining? ==> s'.tasks.m[tid].session == t.session)
            && (tid in s'.tasks.m && s'.tasks.m[tid].Bare? ==> s'.tasks.m[tid].pc == ReleaseQueue(t.session))
            && (t.current.TakeExecuting? ==> NoPermit(s', t.session))
  {
    hide A.BeginDispatch, A.Linearize, A.AbandonDispatch;
  }

  // ------------------------------------------------------------------ whole runs

  lemma {:induction false} AddsNothingCarries(s: Sys, s': Sys, t: Task)
    requires AddsNothing(s, s') && Cleared(s, t)
    ensures Cleared(s', t)
  {
  }

  /** A release holds the gate until it has drained, so nothing else that adds to these tables can run. */
  lemma {:induction false} AdvanceKeepsCleared(codec: Codec, s: Sys, tid: nat, c: Choice)
    requires Inv(s) && AllCleared(s) && tid in s.tasks.m
    ensures AllCleared(Continue(codec, s, tid, s.tasks.m[tid], c))
  {
    hide Continue, Inv, AddsNothing, Cleared;
    var s' := Continue(codec, s, tid, s.tasks.m[tid], c);
    OthersStay(codec, s, tid, c);
    FormOf(s, tid);
    if !NeedsGate(s.tasks.m[tid]) { UngatedAddsNothing(codec, s, tid, c); }
    forall t | t in s'.tasks.m ensures Cleared(s', s'.tasks.m[t]) {
      if t == tid {
        SelfCleared(codec, s, tid, c);
      } else {
        FormOf(s, t);
        if NeedsGate(s.tasks.m[tid]) {
          UngatedIsCleared(s', s.tasks.m[t]);
        } else {
          AddsNothingCarries(s, s', s.tasks.m[t]);
        }
      }
    }
  }

  /** Before it has the gate a handler owes nothing here. */
  lemma UngatedIsCleared(s: Sys, t: Task)
    requires WellFormed(t) && !NeedsGate(t)
    ensures Cleared(s, t)
  {
  }

  lemma {:induction false} SelfCleared(codec: Codec, s: Sys, tid: nat, c: Choice)
    requires Inv(s) && AllCleared(s) && tid in s.tasks.m
    ensures var s' := Continue(codec, s, tid, s.tasks.m[tid], c);
            tid in s'.tasks.m ==> Cleared(s', s'.tasks.m[tid])
  {
    hide Inv;
    var t := s.tasks.m[tid];
    FormOf(s, tid);
    if Releases(t) && NeedsGate(t) {
      ReleaseStepClears(codec, s, tid, c);
    } else {
      OthersAreNoRelease(codec, s, tid, c);
    }
  }

  /** The task, if there still is one, is not in the middle of a release. */
  predicate NotReleasing(s: Sys, tid: nat) {
    tid in s.tasks.m ==>
      !s.tasks.m[tid].Draining? && !(s.tasks.m[tid].Bare? && s.tasks.m[tid].pc.ReleasePrepared?)
  }

  lemma {:induction false} PlanningIsNoRelease(codec: Codec, s: Sys, tid: nat, pc: Pc, c: Choice)
    requires tid in s.tasks.m && s.tasks.m[tid].Bare? && s.tasks.m[tid].pc == pc
    ensures IsPlanPc(pc) ==> NotReleasing(StepPlanStart(codec, s, tid, pc, c), tid)
    ensures IsConfirmPc(pc) ==> NotReleasing(StepConfirm(s, tid, pc, c), tid)
  {
    hide Prepare, ValidRefs, SurfaceIs;
  }

  lemma {:induction false} ServingIsNoRelease(codec: Codec, s: Sys, tid: nat, pc: Pc, c: Choice)
    requires tid in s.tasks.m && s.tasks.m[tid].Bare? && s.tasks.m[tid].pc == pc && !pc.ReleasePrepared?
    ensures NotReleasing(StepArm(codec, s, tid, pc), tid) && NotReleasing(StepReconcile(s, tid, pc, c), tid)
    ensures pc.ReleaseQueue? ==> NotReleasing(StepRelease(s, tid, pc), tid)
    ensures pc.CompleteTake? ==> NotReleasing(StepCompleteTake(s, tid, pc.session, pc.id, pc.succeeded), tid)
  {
    hide A.BeginObservation, A.AbandonObservation, A.CompleteObservation, A.RecordPostcondition, A.Record, Draft;
    hide SurfaceIs, LineageMatches, VerifiedAtDispatch;
  }

  lemma {:induction false} HoldingIsNoRelease(codec: Codec, s: Sys, tid: nat, t: Task, c: Choice)
    requires tid in s.tasks.m && s.tasks.m[tid] == t && WellFormed(t)
    ensures t.HoldingPlan? ==> NotReleasing(StepPlan(s, tid, t.plan, t.at, c), tid)
    ensures t.HoldingPlan? ==> NotReleasing(StepConfirmPlan(codec, s, tid, t.plan, t.at, c), tid)
    ensures t.Completing? ==> NotReleasing(StepCompleting(s, tid, t.permit, t.succeeded, c), tid)
  {
    hide A.Record, A.RecordPrepared, A.Linearize, Materialize, SurfaceIs;
  }

  lemma {:induction false} TokenIsNoRelease(codec: Codec, s: Sys, tid: nat, t: Task, c: Choice)
    requires tid in s.tasks.m && s.tasks.m[tid] == t && WellFormed(t)
    ensures t.HoldingCapability? ==> NotReleasing(StepCapability(s, tid, t.gated, t.capability, t.onward), tid)
    ensures t.HoldingPermit? ==> NotReleasing(StepPermit(s, tid, t.gated, t.permit, t.after, c), tid)
  {
    hide A.BeginDispatch, A.Linearize;
  }

  lemma {:induction false} OthersAreNoRelease(codec: Codec, s: Sys, tid: nat, c: Choice)
    requires tid in s.tasks.m && WellFormed(s.tasks.m[tid])
    requires !(Releases(s.tasks.m[tid]) && NeedsGate(s.tasks.m[tid]))
    ensures NotReleasing(Continue(codec, s, tid, s.tasks.m[tid], c), tid)
  {
    hide NotReleasing, StepPlanStart, StepConfirm, StepRelease, StepArm, StepReconcile, StepCompleteTake;
    hide StepPlan, StepConfirmPlan, StepCapability, StepPermit, StepCompleting, StepDrain;
    var t := s.tasks.m[tid];
    if t.Bare? {
      PlanningIsNoRelease(codec, s, tid, t.pc, c);
      ServingIsNoRelease(codec, s, tid, t.pc, c);
    } else {
      HoldingIsNoRelease(codec, s, tid, t, c);
      TokenIsNoRelease(codec, s, tid, t, c);
    }
  }

  lemma {:induction false} StepKeepsCleared(codec: Codec, s: Sys, l: Label)
    requires Inv(s) && AllCleared(s)
    ensures AllCleared(Step(codec, s, l))
  {
    hide Inv, Continue;
    if l.Advance? {
      if l.task in s.tasks.m { AdvanceKeepsCleared(codec, s, l.task, l.choice); }
    } else if !l.Restart? {
      var s' := Step(codec, s, l);
      assert AddsNothing(s, s');
      forall t | t in s'.tasks.m ensures Cleared(s', s'.tasks.m[t]) {
        if t in s.tasks.m && s'.tasks.m[t] == s.tasks.m[t] { AddsNothingCarries(s, s', s.tasks.m[t]); }
      }
    }
  }

  lemma {:induction false} RunCleared(codec: Codec, keyAvailable: bool, labels: seq<Label>)
    ensures AllCleared(Run(codec, Init(keyAvailable), labels))
  {
    hide Step, Inv, AllCleared;
    if labels == [] {
      NothingToClear(keyAvailable);
    } else {
      var n := |labels| - 1;
      RunCleared(codec, keyAvailable, labels[..n]);
      RunSound(codec, keyAvailable, labels[..n]);
      StepKeepsCleared(codec, Run(codec, Init(keyAvailable), labels[..n]), labels[n]);
    }
  }

  lemma NothingToClear(keyAvailable: bool)
    ensures AllCleared(Init(keyAvailable))
  {
  }

  /**
   * In every run, whatever handlers interleave: while a release drains, and
   * when it is done, no plan and no capability of its session is in a table;
   * the step that takes the permits leaves none of its session; and no step of
   * it takes anything of another session. A handler that had its action in
   * hand before may still file a permit after that.
   */
  lemma ReleaseClearsItsSession(codec: Codec, keyAvailable: bool, labels: seq<Label>, tid: nat, c: Choice)
    requires var s := Run(codec, Init(keyAvailable), labels); tid in s.tasks.m && s.tasks.m[tid].Draining?
    ensures var s := Run(codec, Init(keyAvailable), labels);
            var session := s.tasks.m[tid].session;
            var s' := Step(codec, s, Advance(tid, c));
            && NoPlan(s, session) && NoCapability(s, session) && NoPlan(s', session) && NoCapability(s', session)
            && (s.tasks.m[tid].current.TakeExecuting? ==> NoPermit(s', session)) && SparesOthers(s, s', session)
  {
    hide SparesOthers, StepDrain, Inv, Run;
    var s := Run(codec, Init(keyAvailable), labels);
    RunCleared(codec, keyAvailable, labels);
    assert Cleared(s, s.tasks.m[tid]);
    DrainClears(s, tid, s.tasks.m[tid], c);
    ReleaseSpares(codec, s, tid, c);
  }
}
