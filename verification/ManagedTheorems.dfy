/** What holds of every run of the managed consequential action protocol. */
module ManagedTheorems {
  import opened Common
  import opened ManagedPayload
  import opened Managed
  import opened ManagedAuthority
  import opened ManagedFacts
  import opened ManagedLimits
  import opened ManagedConfirm
  import opened ManagedNarrative
  import Steps = ManagedSteps
  import FactSteps = ManagedFactSteps
  import J = Journal
  import A = JournalApi

  /** Everything the protocol keeps. */
  ghost predicate Sound(codec: Codec, s: Sys) {
    Inv(s) && Facts(codec, s) && A.Valid(s.journal) && WithinCapacity(s) && AllOrNothing(s)
  }

  lemma {:induction false} GatedStays(codec: Codec, s: Sys, tid: nat, c: Choice)
    requires Inv(s) && Facts(codec, s) && AllOrNothing(s) && tid in s.tasks.m && NeedsGate(s.tasks.m[tid])
    ensures AllOrNothing(Continue(codec, s, tid, s.tasks.m[tid], c))
  {
    var s' := Continue(codec, s, tid, s.tasks.m[tid], c);
    OthersStay(codec, s, tid, c);
    GatedAdvances(codec, s, tid, c);
    GatedKeeps(codec, s, s', tid);
  }

  lemma {:induction false} OthersStay(codec: Codec, s: Sys, tid: nat, c: Choice)
    requires Inv(s) && tid in s.tasks.m
    ensures var s' := Continue(codec, s, tid, s.tasks.m[tid], c);
            forall t | t in s'.tasks.m && t != tid :: t in s.tasks.m && s'.tasks.m[t] == s.tasks.m[t]
  {
    AdvanceNarrates(codec, s, tid, c);
  }

  lemma {:induction false} AdvanceMoves(codec: Codec, s: Sys, tid: nat, c: Choice)
    requires Inv(s) && tid in s.tasks.m
    ensures var s' := Continue(codec, s, tid, s.tasks.m[tid], c); Forward(s, s') && GateInv(s')
  {
    hide Continue;
    StepForward(codec, s, Advance(tid, c));
    Steps.StepKeeps(codec, s, Advance(tid, c));
  }

  lemma {:induction false} UngatedStays(codec: Codec, s: Sys, tid: nat, c: Choice)
    requires Inv(s) && Facts(codec, s) && AllOrNothing(s) && tid in s.tasks.m && !NeedsGate(s.tasks.m[tid])
    ensures AllOrNothing(Continue(codec, s, tid, s.tasks.m[tid], c))
  {
    OthersStay(codec, s, tid, c);
    UngatedUndisturbed(codec, s, tid, c);
    AdvanceMoves(codec, s, tid, c);
    UngatedKeeps(codec, s, Continue(codec, s, tid, s.tasks.m[tid], c), tid);
  }

  lemma {:induction false} StepKeepsAllOrNothing(codec: Codec, s: Sys, l: Label)
    requires Inv(s) && Facts(codec, s) && AllOrNothing(s)
    ensures AllOrNothing(Step(codec, s, l))
  {
    hide Facts, Continue;
    match l
    case Advance(tid, c) =>
      if tid in s.tasks.m {
        if NeedsGate(s.tasks.m[tid]) { GatedStays(codec, s, tid, c); } else { UngatedStays(codec, s, tid, c); }
      }
    case EnqueuePublic(session, kind) => EnqueueKeeps(codec, s, session, kind);
    case Restart(_) =>
      forall a: Uuid ensures PlannedOk(Step(codec, s, l), a) {}
    case _ => StartKeeps(codec, s, l);
  }

  lemma {:induction false} StepSound(codec: Codec, s: Sys, l: Label)
    requires Sound(codec, s)
    ensures Sound(codec, Step(codec, s, l))
  {
    Steps.StepKeeps(codec, s, l);
    FactSteps.StepFacts(codec, s, l);
    StepKeepsValid(codec, s, l);
    StepWithin(codec, s, l);
    StepKeepsAllOrNothing(codec, s, l);
  }

  lemma {:induction false} RunSound(codec: Codec, keyAvailable: bool, labels: seq<Label>)
    ensures Sound(codec, Run(codec, Init(keyAvailable), labels))
  {
    hide Step;
    if labels != [] {
      var n := |labels| - 1;
      RunSound(codec, keyAvailable, labels[..n]);
      StepSound(codec, Run(codec, Init(keyAvailable), labels[..n]), labels[n]);
    }
  }

  // ---------------------------------------------------------------- safety

  /**
   * Whatever handlers interleave, and however often the queue redelivers: a
   * planned action is delivered under a permit at most once, the journal
   * holds at most one dispatch receipt for it, and none that denies a
   * delivery that was made.
   */
  lemma DispatchAtMostOnce(codec: Codec, keyAvailable: bool, labels: seq<Label>, a: Uuid)
    ensures var s := Run(codec, Init(keyAvailable), labels);
            && Deliveries(s.log, a) <= 1
            && J.CountOf(s.journal.entries, a, J.IsDispatchReceipt) <= 1
            && (J.CountOf(s.journal.entries, a, J.IsNotDispatchedReceipt) > 0 ==> Deliveries(s.log, a) == 0)
  {
    hide Inv;
    RunSound(codec, keyAvailable, labels);
    var s := Run(codec, Init(keyAvailable), labels);
    OfAction(s, a);
    J.AtMostOneDispatchReceipt(s.journal.entries, J.Append, a);
  }

  /** How often the executor was handed an action at all, with a permit or passing straight through. */
  ghost function AllDeliveries(log: seq<Event>, a: Uuid): nat {
    if log == [] then 0
    else
      var n := |log| - 1;
      AllDeliveries(log[..n], a) + (if log[n].Delivered? && log[n].action.id == a then 1 else 0)
  }

  /**
   * The tracking condition on a state: the batch an executor is about to have
   * snapshotted still has the record of every planned action in it.
   */
  predicate RecordsPresent(s: Sys, t: Task) {
    t.Bare? && t.pc.ArmSnapshot? ==>
      forall x | x in t.pc.taken && x.id in s.book.m ::
        x.id in s.records.m && s.records.m[x.id].session == t.pc.session
  }

  /** A step that snapshots no batch whose planned actions have lost their records, and drains no planned action. */
  predicate Tracks(s: Sys, l: Label) {
    && (l.Advance? && l.task in s.tasks.m ==> RecordsPresent(s, s.tasks.m[l.task]))
    && (l.DrainPublic? ==> forall x | x in TakenOf(s.queue, l.session, PUBLIC_LIMIT) :: x.id !in s.book.m)
  }

  ghost predicate AlwaysTracked(codec: Codec, keyAvailable: bool, labels: seq<Label>) {
    forall i | 0 <= i < |labels| :: Tracks(Run(codec, Init(keyAvailable), labels[..i]), labels[i])
  }

  predicate TracksAll(s: Sys, b: Batch) {
    && (b.head.id in s.book.m ==> b.head.id in b.tracked)
    && (forall x | x in b.rest && x.id in s.book.m :: x.id in b.tracked)
  }

  ghost predicate Tracking(s: Sys) {
    && (forall t, b | t in s.tasks.m && Arms(s.tasks.m[t], b) :: TracksAll(s, b))
    && (forall e | e in s.log && e.Delivered? && !e.permitted :: e.action.id !in s.book.m)
  }

  /** Actions of a batch were minted before the batch was taken, so none is planned later. */
  lemma {:induction false} BatchIsOld(codec: Codec, s: Sys, t: nat, b: Batch)
    requires Facts(codec, s) && t in s.tasks.m && Arms(s.tasks.m[t], b)
    ensures b.head.id < s.minted && (forall x | x in b.rest :: x.id < s.minted)
  {
    TaskIsOk(codec, s, t);
    assert BatchOk(s, b);
    SentIsOk(codec, s);
  }

  lemma {:induction false} TrackingBatch(codec: Codec, s: Sys, s': Sys, tid: nat, b': Batch)
    requires Facts(codec, s) && Tracking(s) && Narrates(s, s', tid) && RecordsPresent(s, s.tasks.m[tid])
    requires tid in s'.tasks.m && Arms(s'.tasks.m[tid], b')
    ensures TracksAll(s', b')
  {
    hide Inv, Facts;
    var t := s.tasks.m[tid];
    if b :| Arms(t, b) && PartOf(b', b) {
      assert TracksAll(s, b);
      BatchIsOld(codec, s, tid, b);
    } else {
      TaskIsOk(codec, s, tid);
      SentIsOk(codec, s);
    }
  }

  lemma {:induction false} AdvanceTracking(codec: Codec, s: Sys, tid: nat, c: Choice)
    requires Inv(s) && Facts(codec, s) && Tracking(s) && tid in s.tasks.m && RecordsPresent(s, s.tasks.m[tid])
    ensures Tracking(Step(codec, s, Advance(tid, c)))
  {
    hide Inv, Facts, Sound, Continue;
    var s' := Continue(codec, s, tid, s.tasks.m[tid], c);
    AdvanceNarrates(codec, s, tid, c);
    forall t, b | t in s'.tasks.m && Arms(s'.tasks.m[t], b) ensures TracksAll(s', b) {
      if t == tid {
        TrackingBatch(codec, s, s', tid, b);
      } else {
        assert TracksAll(s, b);
        BatchIsOld(codec, s, t, b);
      }
    }
    forall e | e in s'.log && e.Delivered? && !e.permitted ensures e.action.id !in s'.book.m {
      if e in s.log {
        EventIsOk(codec, s, e);
      } else {
        var b := s.tasks.m[tid].pc.batch;
        assert Arms(s.tasks.m[tid], b) && TracksAll(s, b);
        BatchIsOld(codec, s, tid, b);
      }
    }
  }

  lemma {:induction false} StepTracking(codec: Codec, s: Sys, l: Label)
    requires Inv(s) && Facts(codec, s) && Tracking(s) && Tracks(s, l)
    ensures Tracking(Step(codec, s, l))
  {
    hide Facts, Inv, Sound, Continue;
    var s' := Step(codec, s, l);
    if l.Advance? {
      if l.task in s.tasks.m { AdvanceTracking(codec, s, l.task, l.choice); }
    } else {
      forall t, b | t in s'.tasks.m && Arms(s'.tasks.m[t], b) ensures TracksAll(s', b) {
        if t in s.tasks.m && s'.tasks.m[t] == s.tasks.m[t] {
          assert TracksAll(s, b);
        } else {
          assert s'.tasks.m[t].Bare? && Batchless(s'.tasks.m[t]);
          BatchlessArmsNothing(s'.tasks.m[t], b);
        }
      }
    }
  }

  lemma {:induction false} RunTracking(codec: Codec, keyAvailable: bool, labels: seq<Label>)
    requires AlwaysTracked(codec, keyAvailable, labels)
    ensures Tracking(Run(codec, Init(keyAvailable), labels))
  {
    hide Inv;
    if labels != [] {
      var n := |labels| - 1;
      forall i | 0 <= i < n ensures labels[..n][..i] == labels[..i] {}
      assert AlwaysTracked(codec, keyAvailable, labels[..n]);
      RunTracking(codec, keyAvailable, labels[..n]);
      RunSound(codec, keyAvailable, labels[..n]);
      StepTracking(codec, Run(codec, Init(keyAvailable), labels[..n]), labels[n]);
    }
  }

  lemma {:induction false} TrackedDeliveriesArePermitted(s: Sys, log: seq<Event>, a: Uuid)
    requires a in s.book.m && (forall e | e in log && e.Delivered? && !e.permitted :: e.action.id !in s.book.m)
    ensures AllDeliveries(log, a) == Deliveries(log, a)
  {
    if log != [] {
      assert log[|log| - 1] in log;
      TrackedDeliveriesArePermitted(s, log[..|log| - 1], a);
    }
  }

  /** Where every delivery is tracked, every delivery is the one permitted delivery. */
  lemma TrackedDispatchAtMostOnce(codec: Codec, keyAvailable: bool, labels: seq<Label>, a: Uuid)
    requires AlwaysTracked(codec, keyAvailable, labels)
    ensures var s := Run(codec, Init(keyAvailable), labels);
            a in s.book.m ==>
              && AllDeliveries(s.log, a) <= 1
              && (J.CountOf(s.journal.entries, a, J.IsNotDispatchedReceipt) > 0 ==> AllDeliveries(s.log, a) == 0)
  {
    var s := Run(codec, Init(keyAvailable), labels);
    DispatchAtMostOnce(codec, keyAvailable, labels, a);
    RunTracking(codec, keyAvailable, labels);
    if a in s.book.m { TrackedDeliveriesArePermitted(s, s.log, a); }
  }

  // --------------------------------------------------------- tables and confirmation

  /** The three authority tables never share an action, and the tables keep to their capacity. */
  lemma TablesDisjointAndBounded(codec: Codec, keyAvailable: bool, labels: seq<Label>)
    ensures var s := Run(codec, Init(keyAvailable), labels);
            && s.pending.m.Keys !! s.prepared.m.Keys && s.pending.m.Keys !! s.executing.m.Keys
            && s.prepared.m.Keys !! s.executing.m.Keys
            && |s.pending.m| <= MAX_PENDING && |s.records.m| <= MAX_RECORDS
  {
    var s := Run(codec, Init(keyAvailable), labels);
    RunSound(codec, keyAvailable, labels);
    forall a: Uuid
      ensures !(a in s.pending.m && a in s.prepared.m) && !(a in s.pending.m && a in s.executing.m)
      ensures !(a in s.prepared.m && a in s.executing.m)
    {
      PlaceOfTabled(s, a);
    }
  }

  /** A task that has consumed the confirmation of plan `p`. */
  predicate Confirms(t: Task, p: Plan) {
    || (t.HoldingPlan? && t.plan == p && !IsPlanning(t.at))
    || (t.HoldingCapability? && t.onward == ConfirmStash(p))
    || (t.HoldingCapability? && t.onward == CancelBegin(RollbackEnd(p)))
    || (t.HoldingPermit? && t.after == CancelFinish(RollbackEnd(p)))
    || (t.Bare? && (t.pc == ConfirmRecord(p) || t.pc == ConfirmEnqueue(p) || t.pc == RollbackRecord(p)
                    || t.pc == RollbackTake(p) || t.pc == RollbackEnd(p)))
  }

  /** Prepared, queued, and with a record unless a status poll found it expired. */
  predicate Armed(s: Sys, p: Plan) {
    var a := p.action.id;
    && At(s, a, AtPrepared) && a in s.prepared.m && p.action in s.queue
    && (a in s.records.m || a in s.lapsed)
    && a !in s.pending.m && a !in s.executing.m
  }

  lemma {:induction false} DroppedNowhere(s: Sys, tid: nat)
    requires Inv(s) && AllOrNothing(s) && tid in s.tasks.m && s.tasks.m[tid].HoldingPlan?
    ensures forall seen ::
              Nowhere(Drop(s.(seen := seen), tid, s.tasks.m[tid].plan.action.id), s.tasks.m[tid].plan.action.id)
  {
    var a := s.tasks.m[tid].plan.action.id;
    PlaceOfHeld(s, tid, a);
    PlaceOfTabled(s, a);
    assert PlannedOk(s, a);
  }

  lemma {:induction false} ConfirmLateOutcome(codec: Codec, s: Sys, tid: nat, p: Plan, at: PlanPc, c: Choice)
    requires tid in s.tasks.m && !IsPlanning(at) && !at.ConfirmCheck?
    ensures var s' := StepConfirmPlan(codec, s, tid, p, at, c);
            tid in s'.tasks.m || s' == Drop(s, tid, p.action.id)
  {
    hide Drop, A.RecordPrepared, A.Record, Materialize;
  }

  lemma {:induction false} ConfirmPlanOutcome(codec: Codec, s: Sys, tid: nat, c: Choice)
    requires tid in s.tasks.m && s.tasks.m[tid].HoldingPlan?
    requires !IsPlanning(s.tasks.m[tid].at)
    ensures var t := s.tasks.m[tid];
            var s' := StepConfirmPlan(codec, s, tid, t.plan, t.at, c);
            tid in s'.tasks.m || s' == Drop(s.(seen := s'.seen), tid, t.plan.action.id)
  {
    var t := s.tasks.m[tid];
    if t.at.ConfirmCheck? {
      hide SurfaceIs;
    } else {
      hide StepConfirmPlan;
      ConfirmLateOutcome(codec, s, tid, t.plan, t.at, c);
    }
  }

  lemma {:induction false} ConfirmHeldOutcome(codec: Codec, s: Sys, tid: nat, c: Choice, p: Plan)
    requires Inv(s) && AllOrNothing(s) && tid in s.tasks.m && s.tasks.m[tid].HoldingPlan?
    requires Confirms(s.tasks.m[tid], p)
    ensures var s' := Continue(codec, s, tid, s.tasks.m[tid], c);
            tid !in s'.tasks.m ==> Nowhere(s', p.action.id)
  {
    ConfirmPlanOutcome(codec, s, tid, c);
    DroppedNowhere(s, tid);
  }

  lemma {:induction false} ConfirmTokenGoesOn(codec: Codec, s: Sys, tid: nat, c: Choice)
    requires tid in s.tasks.m
    requires s.tasks.m[tid].HoldingCapability? || (s.tasks.m[tid].HoldingPermit? && s.tasks.m[tid].after.CancelFinish?)
    ensures tid in Continue(codec, s, tid, s.tasks.m[tid], c).tasks.m
  {
  }

  lemma {:induction false} ConfirmEndOutcome(s: Sys, tid: nat, c: Choice, p: Plan)
    requires Inv(s) && tid in s.tasks.m && s.tasks.m[tid].Bare? && IsConfirmPc(s.tasks.m[tid].pc)
    requires Confirms(s.tasks.m[tid], p) && ConfirmOk(s, s.tasks.m[tid])
    ensures var s' := StepConfirm(s, tid, s.tasks.m[tid].pc, c);
            tid !in s'.tasks.m ==> Armed(s', p) || Nowhere(s', p.action.id)
  {
    PlaceOfTabled(s, p.action.id);
  }

  lemma {:induction false} ConfirmOutcome(codec: Codec, s: Sys, tid: nat, c: Choice, p: Plan)
    requires Inv(s) && AllOrNothing(s) && tid in s.tasks.m && Confirms(s.tasks.m[tid], p)
    ensures var s' := Continue(codec, s, tid, s.tasks.m[tid], c);
            tid !in s'.tasks.m ==> Armed(s', p) || Nowhere(s', p.action.id)
  {
    hide StepPlanStart, StepConfirm, StepRelease, StepArm, StepReconcile;
    hide StepPlan, StepConfirmPlan, StepCapability, StepPermit, StepDrain;
    var t := s.tasks.m[tid];
    if t.HoldingPlan? {
      ConfirmHeldOutcome(codec, s, tid, c, p);
    } else if t.Bare? {
      assert ConfirmOk(s, t);
      ConfirmEndOutcome(s, tid, c, p);
    } else {
      ConfirmTokenGoesOn(codec, s, tid, c);
    }
  }

  lemma {:induction false} ConfirmStepOutcome(codec: Codec, s: Sys, tid: nat, c: Choice, p: Plan)
    requires Sound(codec, s) && tid in s.tasks.m && Confirms(s.tasks.m[tid], p)
    ensures var s' := Step(codec, s, Advance(tid, c));
            tid !in s'.tasks.m ==> Armed(s', p) || Nowhere(s', p.action.id)
  {
    hide Inv, Facts;
    ConfirmOutcome(codec, s, tid, c, p);
  }

  /**
   * A consumed confirmation ends, in whatever step its handler returns, with
   * the action fully armed or with no trace of it in any table, record or queue.
   */
  lemma ConfirmationAllOrNothing(codec: Codec, keyAvailable: bool, labels: seq<Label>, tid: nat, c: Choice, p: Plan)
    requires var s := Run(codec, Init(keyAvailable), labels); tid in s.tasks.m && Confirms(s.tasks.m[tid], p)
    ensures var s' := Step(codec, Run(codec, Init(keyAvailable), labels), Advance(tid, c));
            tid !in s'.tasks.m ==> Armed(s', p) || Nowhere(s', p.action.id)
  {
    RunSound(codec, keyAvailable, labels);
    ConfirmStepOutcome(codec, Run(codec, Init(keyAvailable), labels), tid, c, p);
  }

  /** The action is prepared, executing, queued, or has reached the executor. */
  ghost predicate Beyond(s: Sys, a: Uuid) {
    || a in s.prepared.m || a in s.executing.m || (exists x :: x in s.queue && x.id == a)
    || (exists x, permitted :: Delivered(x, permitted) in s.log && x.id == a)
  }

  lemma {:induction false} PreparationIsApproved(codec: Codec, s: Sys, a: Uuid, g: A.Grant)
    requires Facts(codec, s) && A.PreparationRecorded(s.journal.entries, a, g)
    ensures Approved(s, a)
  {
    hide Approved;
    var i :| 0 <= i < |s.journal.entries| && s.journal.entries[i].action == a
             && s.journal.entries[i].transition.DispatchPrepared?;
    assert EntryOk(s, s.journal.entries[i]);
  }

  lemma {:induction false} TabledIsPrepared(s: Sys, a: Uuid) returns (g: A.Grant)
    requires Inv(s) && A.Valid(s.journal) && (a in s.prepared.m || a in s.executing.m)
    ensures A.PreparationRecorded(s.journal.entries, a, g)
  {
    OfAction(s, a);
    g := if a in s.prepared.m then s.journal.prepared[a] else s.journal.execution[a];
  }

  lemma {:induction false} BeyondIsApproved(codec: Codec, s: Sys, a: Uuid)
    requires Sound(codec, s) && a in s.book.m && Beyond(s, a)
    ensures Approved(s, a)
  {
    hide Inv, Approved, A.Valid;
    if a in s.prepared.m || a in s.executing.m {
      var g := TabledIsPrepared(s, a);
      PreparationIsApproved(codec, s, a, g);
    } else if x :| x in s.queue && x.id == a {
      assert ItemOk(s, x);
    } else {
      var x, permitted :| Delivered(x, permitted) in s.log && x.id == a;
      EventIsOk(codec, s, Delivered(x, permitted));
    }
  }

  /**
   * No action is prepared, queued or handed over, with a permit or without,
   * unless it was planned with its surface there before and after, a handler
   * of its own session took its own confirmation in time, and that handler
   * found the same surface, on both the action and the observation side.
   */
  lemma ArmedOnItsSurface(codec: Codec, keyAvailable: bool, labels: seq<Label>, a: Uuid)
    ensures var s := Run(codec, Init(keyAvailable), labels);
            a in s.book.m && Beyond(s, a) ==>
              var b := s.book.m[a];
              var lineage := (b.authority.provider, b.authority.target);
              && PlanSaw(a, Some(b.authority), Some(b.authority), Some(lineage)) in s.seen
              && ConfirmTook(a, b.session, b.confirmation, false) in s.seen
              && ConfirmSaw(a, Some(b.authority), Some(lineage)) in s.seen
  {
    hide Inv, Beyond;
    var s := Run(codec, Init(keyAvailable), labels);
    RunSound(codec, keyAvailable, labels);
    if a in s.book.m && Beyond(s, a) { BeyondIsApproved(codec, s, a); }
  }

  // -------------------------------------------------------------------- restart

  lemma {:induction false} SpentIsNotDelivered(codec: Codec, s: Sys, l: Label, a: Uuid)
    requires Inv(s) && At(s, a, Spent)
    ensures Deliveries(Step(codec, s, l).log, a) == Deliveries(s.log, a)
  {
    var s' := Step(codec, s, l);
    if l.DrainPublic? { DeliveriesUnpermitted(s.log, TakenOf(s.queue, l.session, PUBLIC_LIMIT), a); }
    if l.Advance? && l.task in s.tasks.m {
      AdvanceNarrates(codec, s, l.task, l.choice);
      if s'.log != s.log {
        var e := s'.log[|s.log|];
        DeliveriesAppend(s.log, e, a);
        var t := s.tasks.m[l.task];
        if e.Delivered? && e.permitted {
          assert WellFormed(t);
          PlaceOfHeld(s, l.task, t.permit.action);
        }
      }
    }
  }

  lemma {:induction false} SpentThroughRun(codec: Codec, s: Sys, labels: seq<Label>, a: Uuid)
    requires Sound(codec, s) && At(s, a, Spent)
    ensures var s' := Run(codec, s, labels);
            Sound(codec, s') && At(s', a, Spent) && Deliveries(s'.log, a) == Deliveries(s.log, a)
  {
    if labels != [] {
      var n := |labels| - 1;
      SpentThroughRun(codec, s, labels[..n], a);
      var mid := Run(codec, s, labels[..n]);
      StepSound(codec, mid, labels[n]);
      SpentForGood(codec, mid, labels[n], a);
      SpentIsNotDelivered(codec, mid, labels[n], a);
    }
  }

  lemma {:induction false} RestartSpends(codec: Codec, s: Sys, key: bool, a: Uuid)
    requires Inv(s) && a in s.book.m
    ensures var r := Step(codec, s, Restart(key)); At(r, a, Spent) && r.log == s.log
  {
    PlaceOfTabled(s, a);
  }

  lemma {:induction false} SpentIsUntabled(s: Sys, a: Uuid)
    requires Inv(s) && At(s, a, Spent)
    ensures a !in s.pending.m && a !in s.prepared.m && a !in s.executing.m
  {
    PlaceOfTabled(s, a);
  }

  /** After a restart no action planned before it is ever delivered under a permit again, in any later run. */
  lemma RestartEndsAuthority(codec: Codec, before: seq<Label>, key: bool, key': bool, later: seq<Label>, a: Uuid)
    ensures var s := Run(codec, Init(key), before);
            var s' := Run(codec, Step(codec, s, Restart(key')), later);
            a in s.book.m ==> At(s', a, Spent) && Deliveries(s'.log, a) == Deliveries(s.log, a)
                              && a !in s'.pending.m && a !in s'.prepared.m && a !in s'.executing.m
  {
    var s := Run(codec, Init(key), before);
    RunSound(codec, key, before);
    if a in s.book.m {
      StepSound(codec, s, Restart(key'));
      RestartSpends(codec, s, key', a);
      var r := Step(codec, s, Restart(key'));
      SpentThroughRun(codec, r, later, a);
      SpentIsUntabled(Run(codec, r, later), a);
    }
  }

  // -------------------------------------------------------------------- payload

  /**
   * What the executor is handed under a permit encodes to exactly the bytes
   * it was planned with, and the journal holds the binding to those bytes.
   */
  lemma DeliveredPayloadIsBound(codec: Codec, keyAvailable: bool, labels: seq<Label>, x: QueuedAction)
    ensures var s := Run(codec, Init(keyAvailable), labels);
            Delivered(x, true) in s.log && x.id in s.book.m && s.book.m[x.id].payload.Some? ==>
              && codec.encode(x.kind) == Some(s.book.m[x.id].payload.value.bytes)
              && x.id in s.bindings.m && codec.encode(x.kind) == Some(s.bindings.m[x.id].digest.bytes)
  {
    var s := Run(codec, Init(keyAvailable), labels);
    RunSound(codec, keyAvailable, labels);
    if Delivered(x, true) in s.log {
      EventIsOk(codec, s, Delivered(x, true));
      if x.id in s.bindings.m { assert BindingOk(s, x.id, s.bindings.m[x.id]); }
    }
  }

  // --------------------------------------------------------------------- status

  datatype Reading = ReadKnownNotDispatched | ReadReconciliationRequired | ReadVerifiedUnexpected | ReadVerifiedExpected

  /** `durable_managed_consequential_status`: what the journal alone says of an action. */
  function DurableReading(state: J.RecoveryState, latest: Option<J.Verdict>): Reading {
    match state
    case Admitted => ReadKnownNotDispatched
    case AuthorizedNotDispatched => ReadKnownNotDispatched
    case KnownNotDispatched => ReadKnownNotDispatched
    case Prepared => ReadReconciliationRequired
    case PossiblyDispatched => ReadReconciliationRequired
    case OutcomeObservedUnverified =>
      if latest == Some(J.VerifiedUnexpected) then ReadVerifiedUnexpected else ReadReconciliationRequired
    case VerifiedUncommitted => ReadReconciliationRequired
    case CommittedState => ReadVerifiedExpected
    case Compensated => ReadReconciliationRequired
    case CompensationFailed => ReadReconciliationRequired
  }

  /**
   * A status of verified-expected in memory means the journal committed the
   * action: the durable reading agrees, and the committing receipt verified
   * every admitted postcondition in an observation that began and ended under
   * the surface authority the action was planned for.
   */
  lemma VerifiedExpectedIsCommitted(codec: Codec, keyAvailable: bool, labels: seq<Label>, a: Uuid,
                                    latest: Option<J.Verdict>)
    returns (k: nat)
    requires var s := Run(codec, Init(keyAvailable), labels);
             a in s.records.m && s.records.m[a].status.VerifiedExpected?
    ensures var s := Run(codec, Init(keyAvailable), labels);
            && J.RecoveryOf(s.journal.entries, a).Some?
            && DurableReading(J.RecoveryOf(s.journal.entries, a).value, latest) == ReadVerifiedExpected
            && J.ProvesPostconditions(s.journal.entries, a, k)
            && a in s.book.m && s.records.m[a].authority == s.book.m[a].authority
            && Witnessed(s, a, s.journal.entries[k].transition.receipt.draft.observationCut)
  {
    hide Inv, WithinCapacity, Run;
    var s := Run(codec, Init(keyAvailable), labels);
    RunSound(codec, keyAvailable, labels);
    RecordIsOk(codec, s, a);
    k := J.CommitMeansProven(s.journal.entries, a);
    assert s.journal.entries[k] in s.journal.entries;
    assert EntryOk(s, s.journal.entries[k]);
  }

  lemma {:induction false} KnownNotDispatchedWasRefused(es: seq<J.Entry>, a: Uuid)
    requires J.RecoveryOf(es, a) == Some(J.KnownNotDispatched)
    ensures J.CountOf(es, a, J.IsNotDispatchedReceipt) > 0
  {
    var n := |es| - 1;
    if es[n].action != a { KnownNotDispatchedWasRefused(es[..n], a); }
  }

  lemma {:induction false} EarlyIsUndelivered(s: Sys, a: Uuid)
    requires Inv(s) && J.Rank(J.RecoveryOf(s.journal.entries, a)) <= 2
    ensures Deliveries(s.log, a) == 0
  {
    OfAction(s, a);
  }

  lemma {:induction false} RefusedIsUndelivered(s: Sys, a: Uuid)
    requires Inv(s) && J.RecoveryOf(s.journal.entries, a) == Some(J.KnownNotDispatched)
    ensures Deliveries(s.log, a) == 0
  {
    KnownNotDispatchedWasRefused(s.journal.entries, a);
    OfAction(s, a);
  }

  /** When the durable status says an action was not dispatched, the executor never got it under a permit. */
  lemma DurablyNotDispatchedIsTrue(codec: Codec, keyAvailable: bool, labels: seq<Label>, a: Uuid,
                                   latest: Option<J.Verdict>)
    ensures var s := Run(codec, Init(keyAvailable), labels);
            var state := J.RecoveryOf(s.journal.entries, a);
            state.Some? && DurableReading(state.value, latest) == ReadKnownNotDispatched ==> Deliveries(s.log, a) == 0
  {
    hide Inv, Facts;
    var s := Run(codec, Init(keyAvailable), labels);
    RunSound(codec, keyAvailable, labels);
    var state := J.RecoveryOf(s.journal.entries, a);
    if state == Some(J.KnownNotDispatched) {
      RefusedIsUndelivered(s, a);
    } else if state.Some? && DurableReading(state.value, latest) == ReadKnownNotDispatched {
      EarlyIsUndelivered(s, a);
    }
  }

  /** An armed action always gets its permit: the journal never refuses a capability that is still in the table. */
  lemma ArmedActionGetsItsPermit(codec: Codec, keyAvailable: bool, labels: seq<Label>, a: Uuid, minted: Uuid)
    ensures var s := Run(codec, Init(keyAvailable), labels);
            a in s.prepared.m ==> A.BeginDispatch(s.journal, s.prepared.m[a].capability, minted).1.Some?
  {
    var s := Run(codec, Init(keyAvailable), labels);
    RunSound(codec, keyAvailable, labels);
    OfAction(s, a);
  }
}
