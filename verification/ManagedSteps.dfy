/** Every step of every handler keeps the conservation invariant. */
module ManagedSteps {
  import opened Common
  import opened ManagedPayload
  import opened Managed
  import opened ManagedAuthority
  import J = Journal
  import A = JournalApi

  ghost predicate Agree<V>(m: Table<V>, m': Table<V>, a: Uuid) {
    forall b: Uuid | b != a :: (b in m.m <==> b in m'.m) && (b in m.m ==> m.m[b] == m'.m[b])
  }

  ghost predicate SameElsewhere(j: A.State, j': A.State, a: Uuid) {
    forall b: Uuid | b != a :: FacetOf(j', b) == FacetOf(j, b)
  }

  ghost predicate LogElsewhere(log: seq<Event>, log': seq<Event>, a: Uuid) {
    forall b: Uuid | b != a :: Deliveries(log', b) == Deliveries(log, b)
  }

  ghost predicate SameDeliveries(log: seq<Event>, log': seq<Event>) {
    forall b: Uuid :: Deliveries(log', b) == Deliveries(log, b)
  }

  /** A task that holds authority over no action but `a`. */
  predicate OnlyHolds(t: Task, a: Uuid) {
    match t
    case Bare(_, _) => true
    case HoldingPlan(p, _) => p.action.id == a
    case HoldingCapability(_, c, _) => c.action == a
    case HoldingPermit(_, p, _) => p.action == a
    case Completing(p, _) => p.action == a
    case Draining(_, _, _, _) => false
  }

  /** Apart from action `a` and the task that ran, nothing the invariant speaks of has changed. */
  ghost predicate Elsewhere(s: Sys, s': Sys, tid: nat, a: Uuid) {
    && s.minted <= s'.minted
    && Agree(s.book, s'.book, a) && Agree(s.place, s'.place, a)
    && Agree(s.pending, s'.pending, a) && Agree(s.prepared, s'.prepared, a) && Agree(s.executing, s'.executing, a)
    && SameElsewhere(s.journal, s'.journal, a) && LogElsewhere(s.log, s'.log, a)
    && Agree(s.tasks, s'.tasks, tid)
  }

  /** A draining release that goes on draining, having touched only what it holds of `a`. */
  predicate DrainOn(t: Task, t': Task, a: Uuid) {
    && t.Draining? && t'.Draining?
    && t.capabilities - {a} == t'.capabilities - {a} && t.permits - {a} == t'.permits - {a}
    && CurrentIs(t.current, a) && CurrentIs(t'.current, a)
  }

  predicate CurrentIs(c: Cancelling, a: Uuid) {
    c.Idle? || (c.Beginning? && c.capability.action == a) || (c.Refusing? && c.permit.action == a)
  }

  ghost predicate RanOn(s: Sys, s': Sys, tid: nat, a: Uuid) {
    || (&& (tid in s.tasks.m ==> OnlyHolds(s.tasks.m[tid], a))
        && (tid in s'.tasks.m ==> OnlyHolds(s'.tasks.m[tid], a)))
    || (tid in s.tasks.m && tid in s'.tasks.m && DrainOn(s.tasks.m[tid], s'.tasks.m[tid], a))
  }

  lemma {:induction false} DrainedElsewhere(t: Task, t': Task, a: Uuid, b: Uuid, f: Facet)
    requires DrainOn(t, t', a) && b != a
    ensures b in Holds(t) <==> b in Holds(t')
    ensures b in Holds(t) ==> Holds(t)[b] == Holds(t')[b]
    ensures TokenOk(f, t, b) ==> TokenOk(f, t', b)
  {
    assert b in t.capabilities <==> b in t.capabilities - {a};
    assert b in t'.capabilities <==> b in t'.capabilities - {a};
    assert b in t.permits <==> b in t.permits - {a};
    assert b in t'.permits <==> b in t'.permits - {a};
  }

  /** Whatever the running task holds of another action, it still holds. */
  ghost predicate StillHeld(s: Sys, s': Sys, tid: nat, b: Uuid) {
    var f := FacetOf(s'.journal, b);
    if tid in s.tasks.m && b in Holds(s.tasks.m[tid]) then
      && tid in s'.tasks.m && b in Holds(s'.tasks.m[tid])
      && Holds(s'.tasks.m[tid])[b] == Holds(s.tasks.m[tid])[b]
      && (TokenOk(f, s.tasks.m[tid], b) ==> TokenOk(f, s'.tasks.m[tid], b))
    else tid !in s'.tasks.m || b !in Holds(s'.tasks.m[tid])
  }

  lemma {:induction false} RanElsewhere(s: Sys, s': Sys, tid: nat, a: Uuid, b: Uuid)
    requires RanOn(s, s', tid, a) && b != a
    ensures StillHeld(s, s', tid, b)
  {
    if tid in s.tasks.m && tid in s'.tasks.m && DrainOn(s.tasks.m[tid], s'.tasks.m[tid], a) {
      DrainedElsewhere(s.tasks.m[tid], s'.tasks.m[tid], a, b, FacetOf(s'.journal, b));
    }
  }

  lemma {:induction false} OtherTasksAgree(s: Sys, s': Sys, tid: nat, a: Uuid, b: Uuid)
    requires TasksAgree(s, b) && StillHeld(s, s', tid, b) && b != a
    requires Agree(s.place, s'.place, a) && Agree(s.tasks, s'.tasks, tid)
    requires FacetOf(s'.journal, b) == FacetOf(s.journal, b)
    ensures TasksAgree(s', b)
  {
  }

  lemma {:induction false} OtherActionKeeps(s: Sys, s': Sys, tid: nat, a: Uuid, b: Uuid)
    requires ActionInv(s, b) && Elsewhere(s, s', tid, a) && RanOn(s, s', tid, a) && b != a
    ensures ActionInv(s', b)
  {
    assert FacetOf(s'.journal, b) == FacetOf(s.journal, b);
    assert Deliveries(s'.log, b) == Deliveries(s.log, b);
    RanElsewhere(s, s', tid, a, b);
    OtherTasksAgree(s, s', tid, a, b);
  }

  lemma {:induction false} OneAction(s: Sys, s': Sys, tid: nat, a: Uuid)
    requires Inv(s) && GateInv(s')
    requires Elsewhere(s, s', tid, a) && RanOn(s, s', tid, a) && ActionInv(s', a)
    ensures Inv(s')
  {
    forall b: Uuid ensures ActionInv(s', b) {
      assert ActionInv(s, b);
      if b != a { OtherActionKeeps(s, s', tid, a, b); }
    }
  }

  /** The running task turned into another one, or returned and dropped its guards. */
  predicate TaskStep(s: Sys, s': Sys, tid: nat) {
    && tid in s.tasks.m && s.minted <= s'.minted
    && (if tid in s'.tasks.m then
          && s'.tasks == s.tasks.With(tid, s'.tasks.m[tid]) && s'.gate == s.gate
          && WellFormed(s'.tasks.m[tid]) && NeedsGate(s'.tasks.m[tid]) == NeedsGate(s.tasks.m[tid])
        else
          && s'.tasks == s.tasks.Without({tid}) && s'.gate == (if s.gate == Some(tid) then None else s.gate))
  }

  lemma {:induction false} GateKept(s: Sys, s': Sys, tid: nat)
    requires GateInv(s) && TaskStep(s, s', tid)
    ensures GateInv(s') && Agree(s.tasks, s'.tasks, tid)
  {
  }

  predicate Tokenless(t: Task) { t.Bare? || t.HoldingPlan? }

  /** The journal learnt nothing about an action, or moved it on once its authority was used up. */
  predicate Drift(f: Facet, f': Facet) {
    f' == f || (f' == f.(state := f'.state) && J.Rank(f.state) >= 3 && J.Rank(f'.state) >= 3)
  }

  ghost predicate Drifts(j: A.State, j': A.State) {
    forall b: Uuid :: Drift(FacetOf(j, b), FacetOf(j', b))
  }

  /** A step that moves no authority at all. */
  lemma {:induction false} Quiet(s: Sys, s': Sys, tid: nat)
    requires Inv(s) && TaskStep(s, s', tid)
    requires s'.book == s.book && s'.place == s.place && s'.pending == s.pending
    requires s'.prepared == s.prepared && s'.executing == s.executing
    requires Drifts(s.journal, s'.journal) && SameDeliveries(s.log, s'.log)
    requires Tokenless(s.tasks.m[tid])
    requires if tid in s'.tasks.m
             then Tokenless(s'.tasks.m[tid]) && Holds(s'.tasks.m[tid]) == Holds(s.tasks.m[tid])
             else Holds(s.tasks.m[tid]) == map[]
    ensures Inv(s')
  {
    GateKept(s, s', tid);
    forall b: Uuid ensures ActionInv(s', b) {
      assert ActionInv(s, b);
      assert Drift(FacetOf(s.journal, b), FacetOf(s'.journal, b));
      QuietAgrees(s, s', tid, b);
      assert Deliveries(s'.log, b) == Deliveries(s.log, b);
    }
  }

  lemma {:induction false} QuietAgrees(s: Sys, s': Sys, tid: nat, b: Uuid)
    requires TasksAgree(s, b) && tid in s.tasks.m && Agree(s.tasks, s'.tasks, tid)
    requires s'.place == s.place && Drift(FacetOf(s.journal, b), FacetOf(s'.journal, b))
    requires Tokenless(s.tasks.m[tid])
    requires if tid in s'.tasks.m
             then Tokenless(s'.tasks.m[tid]) && Holds(s'.tasks.m[tid]) == Holds(s.tasks.m[tid])
             else Holds(s.tasks.m[tid]) == map[]
    ensures TasksAgree(s', b)
  {
  }

  /** What a step must establish about the one action whose authority it moves. */
  ghost predicate Settled(s: Sys, s': Sys, tid: nat, a: Uuid) {
    && (a in s.place.m && s.place.m[a].InTask? ==> s.place.m[a].task == tid)
    && (if tid in s'.tasks.m && a in Holds(s'.tasks.m[tid]) then
          && a in s'.place.m && s'.place.m[a] == InTask(tid, Holds(s'.tasks.m[tid])[a])
          && TokenOk(FacetOf(s'.journal, a), s'.tasks.m[tid], a)
        else a !in s'.place.m || !s'.place.m[a].InTask?)
    && a in s'.place.m && a in s'.book.m && a < s'.minted
    && TablesAgree(s', a)
    && StageOk(FacetOf(s'.journal, a), Deliveries(s'.log, a), StageAt(s'.place.m[a]))
  }

  /** A step about one action: everything else stays, and the action itself is settled. */
  lemma {:induction false} Moves(s: Sys, s': Sys, tid: nat, a: Uuid)
    requires Inv(s) && TaskStep(s, s', tid) && RanOn(s, s', tid, a)
    requires Agree(s.book, s'.book, a) && Agree(s.place, s'.place, a)
    requires Agree(s.pending, s'.pending, a) && Agree(s.prepared, s'.prepared, a) && Agree(s.executing, s'.executing, a)
    requires SameElsewhere(s.journal, s'.journal, a) && LogElsewhere(s.log, s'.log, a)
    requires Settled(s, s', tid, a)
    ensures Inv(s')
  {
    GateKept(s, s', tid);
    assert ActionInv(s, a);
    assert TasksAgree(s', a) by { MovedAction(s, s', tid, a); }
    OneAction(s, s', tid, a);
  }

  /** The same for every task but a draining release, which alone holds several actions at once. */
  lemma {:induction false} SoloMoves(s: Sys, s': Sys, tid: nat, a: Uuid)
    requires Inv(s) && TaskStep(s, s', tid) && OnlyHolds(s.tasks.m[tid], a)
    requires tid in s'.tasks.m ==> OnlyHolds(s'.tasks.m[tid], a)
    requires Agree(s.book, s'.book, a) && Agree(s.place, s'.place, a)
    requires Agree(s.pending, s'.pending, a) && Agree(s.prepared, s'.prepared, a) && Agree(s.executing, s'.executing, a)
    requires SameElsewhere(s.journal, s'.journal, a) && LogElsewhere(s.log, s'.log, a)
    requires Settled(s, s', tid, a)
    ensures Inv(s')
  {
    Moves(s, s', tid, a);
  }

  /** The tasks agree about the action that moved, if the task that ran does and no other held it. */
  lemma {:induction false} MovedAction(s: Sys, s': Sys, tid: nat, a: Uuid)
    requires TasksAgree(s, a) && Agree(s.tasks, s'.tasks, tid) && Settled(s, s', tid, a)
    ensures TasksAgree(s', a)
  {
    forall t | t in s'.tasks.m
      ensures a in Holds(s'.tasks.m[t]) <==> a in s'.place.m && s'.place.m[a].InTask? && s'.place.m[a].task == t
    {
      if t != tid { assert t in s.tasks.m && s'.tasks.m[t] == s.tasks.m[t]; }
    }
  }

  lemma {:induction false} RecordElsewhere(j: A.State, a: Uuid, t: J.Transition, durable: bool)
    ensures SameElsewhere(j, A.Record(j, a, t, durable).0, a)
  {
    forall b: Uuid | b != a ensures FacetOf(A.Record(j, a, t, durable).0, b) == FacetOf(j, b) {
      FacetAppend(j, a, t, b);
    }
  }

  lemma {:induction false} PreparedElsewhere(j: A.State, a: Uuid, p: J.PreparationReceipt, durable: bool, minted: Uuid)
    ensures SameElsewhere(j, A.RecordPrepared(j, a, p, durable, minted).0, a)
  {
    forall b: Uuid | b != a ensures FacetOf(A.RecordPrepared(j, a, p, durable, minted).0, b) == FacetOf(j, b) {
      FacetAppend(j, a, J.DispatchPrepared(p), b);
    }
  }

  /** Giving up a plan that was never armed. */
  lemma {:induction false} DropKeeps(s: Sys, tid: nat)
    requires Inv(s) && tid in s.tasks.m && s.tasks.m[tid].HoldingPlan?
    ensures forall seen :: Inv(Drop(s.(seen := seen), tid, s.tasks.m[tid].plan.action.id))
  {
    var a := s.tasks.m[tid].plan.action.id;
    OfAction(s, a);
    assert a in Holds(s.tasks.m[tid]);
    forall seen ensures Inv(Drop(s.(seen := seen), tid, a)) { SoloMoves(s, Drop(s.(seen := seen), tid, a), tid, a); }
  }

  /** Taking a prepared dispatch out of its table into the running task. */
  lemma {:induction false} TakeKeeps(s: Sys, tid: nat, a: Uuid, t': Task)
    requires Inv(s) && tid in s.tasks.m && s.tasks.m[tid].Bare? && a in s.prepared.m
    requires t'.HoldingCapability? && t'.capability == s.prepared.m[a].capability
    requires WellFormed(t') && t'.gated == s.tasks.m[tid].gated
    ensures Inv(Become(Move(s.(prepared := s.prepared.Without({a})), a, InTask(tid, Capable)), tid, t'))
  {
    OfAction(s, a);
    SoloMoves(s, Become(Move(s.(prepared := s.prepared.Without({a})), a, InTask(tid, Capable)), tid, t'), tid, a);
  }

  /** Taking it out only to find it belongs to another session: the capability is lost. */
  lemma {:induction false} TakeLostKeeps(s: Sys, tid: nat, a: Uuid, pc: Pc)
    requires Inv(s) && tid in s.tasks.m && s.tasks.m[tid].Bare? && a in s.prepared.m
    requires GatedPc(pc) == s.tasks.m[tid].gated
    ensures Inv(Become(Move(s.(prepared := s.prepared.Without({a})), a, Spent), tid, Bare(GatedPc(pc), pc)))
  {
    OfAction(s, a);
    SoloMoves(s, Become(Move(s.(prepared := s.prepared.Without({a})), a, Spent), tid, Bare(GatedPc(pc), pc)), tid, a);
  }

  // --------------------------------------------------------------------- plan

  lemma {:induction false} PrunePendingKeeps(codec: Codec, s: Sys, tid: nat, c: Choice)
    requires Inv(s) && tid in s.tasks.m && s.tasks.m[tid].Bare? && s.tasks.m[tid].pc.PlanPrunePending?
    ensures Inv(StepPlanStart(codec, s, tid, s.tasks.m[tid].pc, c))
  {
    var s' := StepPlanStart(codec, s, tid, s.tasks.m[tid].pc, c);
    GateKept(s, s', tid);
    forall b: Uuid ensures ActionInv(s', b) {
      OfAction(s, b);
    }
  }

  lemma {:induction false} PlanQuietKeeps(codec: Codec, s: Sys, tid: nat, c: Choice)
    requires Inv(s) && tid in s.tasks.m && s.tasks.m[tid].Bare?
    requires s.tasks.m[tid].pc.PlanPruneRecords? || s.tasks.m[tid].pc.PlanCapacity?
    ensures Inv(StepPlanStart(codec, s, tid, s.tasks.m[tid].pc, c))
  {
    Quiet(s, StepPlanStart(codec, s, tid, s.tasks.m[tid].pc, c), tid);
  }

  lemma {:induction false} PlanBindKeeps(codec: Codec, s: Sys, tid: nat, c: Choice)
    requires Inv(s) && tid in s.tasks.m && s.tasks.m[tid].Bare? && s.tasks.m[tid].pc.PlanBind?
    ensures Inv(StepPlanStart(codec, s, tid, s.tasks.m[tid].pc, c))
  {
    var s' := StepPlanStart(codec, s, tid, s.tasks.m[tid].pc, c);
    OfAction(s, s.minted);
    if tid in s'.tasks.m { SoloMoves(s, s', tid, s.minted); } else { Quiet(s, s', tid); }
  }

  lemma {:induction false} PlanIntentKeeps(s: Sys, tid: nat, c: Choice)
    requires Inv(s) && tid in s.tasks.m && s.tasks.m[tid].HoldingPlan? && s.tasks.m[tid].at.PlanIntent?
    ensures Inv(StepPlan(s, tid, s.tasks.m[tid].plan, PlanIntent, c))
  {
    hide Inv;
    var p := s.tasks.m[tid].plan;
    var a := p.action.id;
    var t := J.IntentAdmitted(p.envelope);
    RecordElsewhere(s.journal, a, t, c.ok);
    FacetAppend(s.journal, a, t, a);
    OfAction(s, a);
    assert a in Holds(s.tasks.m[tid]);
    SoloMoves(s, StepPlan(s, tid, p, PlanIntent, c), tid, a);
  }

  lemma {:induction false} PlanBoundKeeps(s: Sys, tid: nat, c: Choice)
    requires Inv(s) && tid in s.tasks.m && s.tasks.m[tid].HoldingPlan?
    requires s.tasks.m[tid].at.PlanOperation? || s.tasks.m[tid].at.PlanPayload?
    ensures Inv(StepPlan(s, tid, s.tasks.m[tid].plan, s.tasks.m[tid].at, c))
  {
    var s' := StepPlan(s, tid, s.tasks.m[tid].plan, s.tasks.m[tid].at, c);
    if tid in s'.tasks.m { Quiet(s, s', tid); } else { DropKeeps(s, tid); }
  }

  lemma {:induction false} PlanInsertKeeps(s: Sys, tid: nat, c: Choice)
    requires Inv(s) && tid in s.tasks.m && s.tasks.m[tid].HoldingPlan? && s.tasks.m[tid].at.PlanInsert?
    ensures Inv(StepPlan(s, tid, s.tasks.m[tid].plan, PlanInsert, c))
  {
    var p := s.tasks.m[tid].plan;
    OfAction(s, p.action.id);
    assert p.action.id in Holds(s.tasks.m[tid]);
    SoloMoves(s, StepPlan(s, tid, p, PlanInsert, c), tid, p.action.id);
  }

  // ------------------------------------------------------------------ confirm

  lemma {:induction false} ConsumeKeeps(s: Sys, tid: nat, c: Choice)
    requires Inv(s) && tid in s.tasks.m && s.tasks.m[tid].Bare? && s.tasks.m[tid].pc.ConfirmConsume?
    ensures Inv(StepConfirm(s, tid, s.tasks.m[tid].pc, c))
  {
    hide FacetOf;
    var pc := s.tasks.m[tid].pc;
    var s' := StepConfirm(s, tid, pc, c);
    OfAction(s, pc.id);
    if s'.pending == s.pending { Quiet(s, s', tid); } else { SoloMoves(s, s', tid, pc.id); }
  }

  lemma {:induction false} ConfirmQuietKeeps(s: Sys, tid: nat, c: Choice)
    requires Inv(s) && tid in s.tasks.m && s.tasks.m[tid].Bare? && IsConfirmPc(s.tasks.m[tid].pc)
    requires !s.tasks.m[tid].pc.ConfirmConsume? && !s.tasks.m[tid].pc.RollbackTake?
    ensures Inv(StepConfirm(s, tid, s.tasks.m[tid].pc, c))
  {
    Quiet(s, StepConfirm(s, tid, s.tasks.m[tid].pc, c), tid);
  }

  lemma {:induction false} RollbackTakeKeeps(s: Sys, tid: nat, c: Choice)
    requires Inv(s) && tid in s.tasks.m && s.tasks.m[tid].Bare? && s.tasks.m[tid].pc.RollbackTake?
    ensures Inv(StepConfirm(s, tid, s.tasks.m[tid].pc, c))
  {
    var s' := StepConfirm(s, tid, s.tasks.m[tid].pc, c);
    var a := s.tasks.m[tid].pc.plan.action.id;
    OfTask(s, tid);
    if a in s.prepared.m {
      TakeKeeps(s, tid, a,
                HoldingCapability(true, s.prepared.m[a].capability, CancelBegin(RollbackEnd(s.tasks.m[tid].pc.plan))));
    } else {
      Quiet(s, s', tid);
    }
  }

  lemma {:induction false} ConfirmChecksKeep(codec: Codec, s: Sys, tid: nat, c: Choice)
    requires Inv(s) && tid in s.tasks.m && s.tasks.m[tid].HoldingPlan?
    requires var at := s.tasks.m[tid].at;
             at.ConfirmCheck? || at.ConfirmPrune? || at.ConfirmCapacity? || at.ConfirmMaterialize?
    ensures Inv(StepConfirmPlan(codec, s, tid, s.tasks.m[tid].plan, s.tasks.m[tid].at, c))
  {
    hide Inv, ActionInv;
    var t := s.tasks.m[tid];
    var s' := StepConfirmPlan(codec, s, tid, t.plan, t.at, c);
    DropKeeps(s, tid);
    if tid in s'.tasks.m {
      Quiet(s, s', tid);
    } else {
      assert s' == Drop(s.(seen := s'.seen), tid, t.plan.action.id);
    }
  }

  lemma {:induction false} AuthorizeKeeps(codec: Codec, s: Sys, tid: nat, c: Choice)
    requires Inv(s) && tid in s.tasks.m && s.tasks.m[tid].HoldingPlan? && s.tasks.m[tid].at.ConfirmAuthorize?
    ensures Inv(StepConfirmPlan(codec, s, tid, s.tasks.m[tid].plan, ConfirmAuthorize, c))
  {
    hide Inv, FacetOf;
    var p := s.tasks.m[tid].plan;
    var a := p.action.id;
    var t := J.AuthorizationRecorded(p.envelope.authorizationRevision, true);
    RecordElsewhere(s.journal, a, t, c.ok);
    FacetAppend(s.journal, a, t, a);
    OfAction(s, a);
    assert a in Holds(s.tasks.m[tid]);
    SoloMoves(s, StepConfirmPlan(codec, s, tid, p, ConfirmAuthorize, c), tid, a);
  }

  lemma {:induction false} PrepareKeeps(codec: Codec, s: Sys, tid: nat, c: Choice)
    requires Inv(s) && tid in s.tasks.m && s.tasks.m[tid].HoldingPlan? && s.tasks.m[tid].at.ConfirmPrepare?
    ensures Inv(StepConfirmPlan(codec, s, tid, s.tasks.m[tid].plan, s.tasks.m[tid].at, c))
  {
    var t := s.tasks.m[tid];
    var p := t.plan;
    var a := p.action.id;
    var receipt := J.PreparationReceipt("dispatch-prepared", t.at.authorizationSequence, p.envelope.preconditionCut,
                                        p.envelope.provider, p.envelope.target);
    if A.RecordPrepared(s.journal, a, receipt, c.ok, s.minted).1.None? {
      DropKeeps(s, tid);
    } else {
      PreparedKeeps(codec, s, tid, c, receipt);
    }
  }

  /** The journal minted a capability, and the confirming task holds it instead of the plan. */
  lemma {:induction false} PreparedMoves(s: Sys, s': Sys, tid: nat, p: Plan, capability: A.Capability)
    requires Inv(s) && TaskStep(s, s', tid) && s.tasks.m[tid].HoldingPlan? && s.tasks.m[tid].plan == p
    requires tid in s'.tasks.m && s'.tasks.m[tid] == HoldingCapability(true, capability, ConfirmStash(p))
    requires s'.place == s.place.With(p.action.id, InTask(tid, Capable)) && s'.log == s.log && s'.book == s.book
    requires s'.pending == s.pending && s'.prepared == s.prepared && s'.executing == s.executing
    requires SameElsewhere(s.journal, s'.journal, p.action.id)
    requires var f := FacetOf(s.journal, p.action.id); var f' := FacetOf(s'.journal, p.action.id);
             && CapabilityOk(f', capability, p.action.id) && f'.receipts == f.receipts && f'.refusals == f.refusals
             && J.Rank(f'.state) >= 3
    ensures Inv(s')
  {
    OfAction(s, p.action.id);
    assert p.action.id in Holds(s.tasks.m[tid]);
    SoloMoves(s, s', tid, p.action.id);
  }

  lemma {:induction false} PreparedKeeps(codec: Codec, s: Sys, tid: nat, c: Choice, receipt: J.PreparationReceipt)
    requires Inv(s) && tid in s.tasks.m && s.tasks.m[tid].HoldingPlan? && s.tasks.m[tid].at.ConfirmPrepare?
    requires var t := s.tasks.m[tid];
             && receipt == J.PreparationReceipt("dispatch-prepared", t.at.authorizationSequence,
                                                t.plan.envelope.preconditionCut, t.plan.envelope.provider,
                                                t.plan.envelope.target)
             && A.RecordPrepared(s.journal, t.plan.action.id, receipt, c.ok, s.minted).1.Some?
    ensures Inv(StepConfirmPlan(codec, s, tid, s.tasks.m[tid].plan, s.tasks.m[tid].at, c))
  {
    var t := s.tasks.m[tid];
    var a := t.plan.action.id;
    PreparedElsewhere(s.journal, a, receipt, c.ok, s.minted);
    FacetAppend(s.journal, a, J.DispatchPrepared(receipt), a);
    PreparedMoves(s, StepConfirmPlan(codec, s, tid, t.plan, t.at, c), tid, t.plan,
                  A.RecordPrepared(s.journal, a, receipt, c.ok, s.minted).1.value);
  }

  // ------------------------------------------------------------------ release

  /** Several actions move from a table into the running task, or out of the game. */
  lemma {:induction false} ReleasePendingKeeps(s: Sys, tid: nat)
    requires Inv(s) && tid in s.tasks.m && s.tasks.m[tid].Bare? && s.tasks.m[tid].pc.ReleasePending?
    ensures Inv(StepRelease(s, tid, s.tasks.m[tid].pc))
  {
    var s' := StepRelease(s, tid, s.tasks.m[tid].pc);
    GateKept(s, s', tid);
    forall b: Uuid ensures ActionInv(s', b) {
      OfAction(s, b);
    }
  }

  lemma {:induction false} ReleasePreparedOf(s: Sys, tid: nat, b: Uuid)
    requires Inv(s) && tid in s.tasks.m && s.tasks.m[tid].Bare? && s.tasks.m[tid].pc.ReleasePrepared?
    ensures ActionInv(StepRelease(s, tid, s.tasks.m[tid].pc), b)
  {
    OfAction(s, b);
  }

  lemma {:induction false} ReleasePreparedKeeps(s: Sys, tid: nat)
    requires Inv(s) && tid in s.tasks.m && s.tasks.m[tid].Bare? && s.tasks.m[tid].pc.ReleasePrepared?
    ensures Inv(StepRelease(s, tid, s.tasks.m[tid].pc))
  {
    hide ActionInv;
    var s' := StepRelease(s, tid, s.tasks.m[tid].pc);
    GateKept(s, s', tid);
    forall b: Uuid ensures ActionInv(s', b) { ReleasePreparedOf(s, tid, b); }
  }

  lemma {:induction false} ReleaseQueueKeeps(s: Sys, tid: nat)
    requires Inv(s) && tid in s.tasks.m && s.tasks.m[tid].Bare? && s.tasks.m[tid].pc.ReleaseQueue?
    ensures Inv(StepRelease(s, tid, s.tasks.m[tid].pc))
  {
    Quiet(s, StepRelease(s, tid, s.tasks.m[tid].pc), tid);
  }

  lemma {:induction false} TakeExecutingTables(s: Sys, s': Sys, tid: nat, c: Choice, b: Uuid)
    requires TablesAgree(s, b) && tid in s.tasks.m && s.tasks.m[tid].Draining? && s.tasks.m[tid].current.TakeExecuting?
    requires s' == StepDrain(s, tid, s.tasks.m[tid], c)
    ensures TablesAgree(s', b)
  {
    hide TokenOk;
    assert FacetOf(s'.journal, b) == FacetOf(s.journal, b);
  }

  lemma {:induction false} TakeExecutingMoves(s: Sys, s': Sys, tid: nat, c: Choice, b: Uuid)
    requires tid in s.tasks.m && s.tasks.m[tid].Draining? && s.tasks.m[tid].current.TakeExecuting?
    requires s' == StepDrain(s, tid, s.tasks.m[tid], c) && (b in s.executing.m ==> b in s.place.m)
    ensures s'.journal == s.journal && s'.tasks.m.Keys == s.tasks.m.Keys
    ensures forall k | k in s.tasks.m && k != tid :: s'.tasks.m[k] == s.tasks.m[k]
    ensures var t, t' := s.tasks.m[tid], s'.tasks.m[tid];
            && t' == t.(permits := t'.permits, current := Idle)
            && (b in t'.permits <==> b in s.executing.m && s.executing.m[b].session == t.session)
            && (b in t'.permits ==> t'.permits[b] == s.executing.m[b].permit)
            && (b in s'.place.m <==> b in s.place.m)
            && (b in s.place.m ==> s'.place.m[b] == if b in t'.permits then InTask(tid, Running) else s.place.m[b])
  {
  }

  lemma {:induction false} TakeExecutingTasks(s: Sys, s': Sys, tid: nat, c: Choice, b: Uuid)
    requires ActionInv(s, b) && tid in s.tasks.m && s.tasks.m[tid].Draining? && s.tasks.m[tid].current.TakeExecuting?
    requires s.tasks.m[tid].permits == map[] && s' == StepDrain(s, tid, s.tasks.m[tid], c)
    ensures TasksAgree(s', b)
    ensures b in s.tasks.m[tid].capabilities ==> b !in s.executing.m
  {
    hide FacetOf, StageOk, PermitOk, StepDrain;
    var t := s.tasks.m[tid];
    TakeExecutingMoves(s, s', tid, c, b);
    assert b in Holds(t) <==> b in t.capabilities;
  }

  lemma {:induction false} TakeExecutingKeepsAction(s: Sys, s': Sys, tid: nat, c: Choice, b: Uuid)
    requires ActionInv(s, b) && tid in s.tasks.m && s.tasks.m[tid].Draining? && s.tasks.m[tid].current.TakeExecuting?
    requires s.tasks.m[tid].permits == map[] && s' == StepDrain(s, tid, s.tasks.m[tid], c)
    ensures ActionInv(s', b)
    ensures b in s.tasks.m[tid].capabilities ==> b !in s.executing.m
  {
    hide FacetOf, TasksAgree;
    TakeExecutingTables(s, s', tid, c, b);
    TakeExecutingTasks(s, s', tid, c, b);
  }

  lemma {:induction false} TakeExecutingKeeps(s: Sys, tid: nat, c: Choice)
    requires Inv(s) && tid in s.tasks.m && s.tasks.m[tid].Draining? && s.tasks.m[tid].current.TakeExecuting?
    ensures Inv(StepDrain(s, tid, s.tasks.m[tid], c))
  {
    var t := s.tasks.m[tid];
    var s' := StepDrain(s, tid, t, c);
    forall b: Uuid
      ensures ActionInv(s', b)
      ensures b in t.capabilities ==> b !in s.executing.m
    {
      OfAction(s, b);
      TakeExecutingKeepsAction(s, s', tid, c, b);
    }
    assert WellFormed(s'.tasks.m[tid]);
    GateKept(s, s', tid);
  }

  /** `begin_dispatch` concerns one action and turns its live capability into a live permit. */
  lemma {:induction false} BeginElsewhere(j: A.State, c: A.Capability, minted: Uuid)
    ensures SameElsewhere(j, A.BeginDispatch(j, c, minted).0, c.action)
    ensures var (j', p) := A.BeginDispatch(j, c, minted);
            var f := FacetOf(j, c.action); var f' := FacetOf(j', c.action);
            && f'.state == f.state && f'.receipts == f.receipts && f'.refusals == f.refusals
            && (p.Some? ==> PermitOk(f', p.value, c.action))
  {
    var j' := A.BeginDispatch(j, c, minted).0;
    assert j'.entries == j.entries && j'.instance == j.instance;
  }

  /** A receipt concerns one action and counts once. */
  lemma {:induction false} LinearizeElsewhere(j: A.State, p: A.Permit, result: J.DispatchResult, durable: bool,
                                              minted: Uuid)
    ensures SameElsewhere(j, A.Linearize(j, p, result, durable, minted).0, p.action)
    ensures var f := FacetOf(j, p.action);
            var f' := FacetOf(A.Linearize(j, p, result, durable, minted).0, p.action);
            && (f'.state == f.state || J.Rank(f'.state) >= 3)
            && f'.refusals <= f.refusals + (if J.MayHaveDispatched(result) then 0 else 1)
  {
    var j' := A.Linearize(j, p, result, durable, minted).0;
    var mid := j.(execution := j.execution - {p.action});
    if A.Honours(j, p) && A.StillPrepared(j, p.action, p.grant) {
      FacetAppend(mid, p.action, J.DispatchLinearized(minted, result), p.action);
      RecordElsewhere(mid, p.action, J.DispatchLinearized(minted, result), durable);
    }
    forall b: Uuid | b != p.action ensures FacetOf(j', b) == FacetOf(j, b) {
      assert FacetOf(mid, b) == FacetOf(j, b);
    }
  }

  lemma {:induction false} AbandonElsewhere(j: A.State, p: A.Permit)
    ensures SameElsewhere(j, A.AbandonDispatch(j, p).0, p.action)
    ensures var f := FacetOf(j, p.action); var f' := FacetOf(A.AbandonDispatch(j, p).0, p.action);
            f'.state == f.state && f'.receipts == f.receipts && f'.refusals == f.refusals
  {
  }

  /** The drain has used a capability up. */
  lemma {:induction false} DrainSpentKeeps(s: Sys, tid: nat, j: A.State)
    requires Inv(s) && tid in s.tasks.m && s.tasks.m[tid].Draining? && s.tasks.m[tid].current.Beginning?
    requires var a := s.tasks.m[tid].current.capability.action;
             var f, f' := FacetOf(s.journal, a), FacetOf(j, a);
             && SameElsewhere(s.journal, j, a)
             && f'.state == f.state && f'.receipts == f.receipts && f'.refusals == f.refusals
    ensures var t := s.tasks.m[tid];
            Inv(Become(Move(s.(journal := j, minted := s.minted + 1), t.current.capability.action, Spent), tid,
                       t.(current := Idle)))
  {
    hide FacetOf;
    var t := s.tasks.m[tid];
    var a := t.current.capability.action;
    OfTask(s, tid);
    OfAction(s, a);
    assert a in Holds(t);
    Moves(s, Become(Move(s.(journal := j, minted := s.minted + 1), a, Spent), tid, t.(current := Idle)), tid, a);
  }

  /** The drain has turned a capability into a permit. */
  lemma {:induction false} DrainBegunKeeps(s: Sys, tid: nat, j: A.State, permit: A.Permit)
    requires Inv(s) && tid in s.tasks.m && s.tasks.m[tid].Draining? && s.tasks.m[tid].current.Beginning?
    requires var a := s.tasks.m[tid].current.capability.action;
             var f, f' := FacetOf(s.journal, a), FacetOf(j, a);
             && SameElsewhere(s.journal, j, a) && PermitOk(f', permit, a)
             && f'.state == f.state && f'.receipts == f.receipts && f'.refusals == f.refusals
    ensures var t := s.tasks.m[tid];
            var a := t.current.capability.action;
            Inv(Become(Move(s.(journal := j, minted := s.minted + 1), a, InTask(tid, Permitted)), tid,
                       t.(current := Refusing(permit))))
  {
    hide FacetOf;
    var t := s.tasks.m[tid];
    var a := t.current.capability.action;
    var s1 := Move(s.(journal := j, minted := s.minted + 1), a, InTask(tid, Permitted));
    OfTask(s, tid);
    OfAction(s, a);
    assert a in Holds(t);
    Moves(s, Become(s1, tid, t.(current := Refusing(permit))), tid, a);
  }

  lemma {:induction false} DrainBeginKeeps(s: Sys, tid: nat, c: Choice)
    requires Inv(s) && tid in s.tasks.m && s.tasks.m[tid].Draining? && s.tasks.m[tid].current.Beginning?
    ensures Inv(StepDrain(s, tid, s.tasks.m[tid], c))
  {
    hide Inv, FacetOf, SameElsewhere, A.BeginDispatch;
    var (j, permit) := A.BeginDispatch(s.journal, s.tasks.m[tid].current.capability, s.minted);
    BeginElsewhere(s.journal, s.tasks.m[tid].current.capability, s.minted);
    if permit.None? { DrainSpentKeeps(s, tid, j); } else { DrainBegunKeeps(s, tid, j, permit.value); }
  }

  lemma {:induction false} DrainRefuseKeeps(s: Sys, tid: nat, c: Choice)
    requires Inv(s) && tid in s.tasks.m && s.tasks.m[tid].Draining? && s.tasks.m[tid].current.Refusing?
    ensures Inv(StepDrain(s, tid, s.tasks.m[tid], c))
  {
    hide FacetOf, SameElsewhere;
    var t := s.tasks.m[tid];
    var a := t.current.permit.action;
    OfTask(s, tid);
    LinearizeElsewhere(s.journal, t.current.permit, J.NotDispatched, c.ok, s.minted);
    OfAction(s, a);
    assert a in Holds(t);
    Moves(s, StepDrain(s, tid, t, c), tid, a);
  }

  lemma {:induction false} DrainIdleKeeps(s: Sys, tid: nat, c: Choice)
    requires Inv(s) && tid in s.tasks.m && s.tasks.m[tid].Draining? && s.tasks.m[tid].current.Idle?
    ensures Inv(StepDrain(s, tid, s.tasks.m[tid], c))
  {
    hide Deliveries, A.BeginDispatch;
    var t := s.tasks.m[tid];
    var s' := StepDrain(s, tid, t, c);
    OfTask(s, tid);
    if c.pick in t.capabilities {
      DrainPickKeeps(s, tid, c);
    } else if t.capabilities == map[] && c.pick in t.permits {
      DrainAbandonKeeps(s, tid, c);
    } else if t.capabilities == map[] && t.permits == map[] {
      assert Holds(t) == map[];
      forall b: Uuid ensures ActionInv(s', b) {
        OfAction(s, b);
      }
    }
  }

  lemma {:induction false} DrainPickKeeps(s: Sys, tid: nat, c: Choice)
    requires Inv(s) && tid in s.tasks.m && s.tasks.m[tid].Draining? && s.tasks.m[tid].current.Idle?
    requires c.pick in s.tasks.m[tid].capabilities
    ensures Inv(StepDrain(s, tid, s.tasks.m[tid], c))
  {
    hide FacetOf, A.Linearize;
    var t := s.tasks.m[tid];
    var s' := StepDrain(s, tid, t, c);
    OfAction(s, c.pick);
    assert c.pick in Holds(t);
    OfTask(s, tid);
    Moves(s, s', tid, c.pick);
  }

  lemma {:induction false} DrainAbandonKeeps(s: Sys, tid: nat, c: Choice)
    requires Inv(s) && tid in s.tasks.m && s.tasks.m[tid].Draining? && s.tasks.m[tid].current.Idle?
    requires s.tasks.m[tid].capabilities == map[] && c.pick in s.tasks.m[tid].permits
    ensures Inv(StepDrain(s, tid, s.tasks.m[tid], c))
  {
    hide Inv, FacetOf;
    var t := s.tasks.m[tid];
    var s' := StepDrain(s, tid, t, c);
    OfAction(s, c.pick);
    assert c.pick in Holds(t);
    assert TokenOk(FacetOf(s.journal, c.pick), t, c.pick);
    AbandonElsewhere(s.journal, t.permits[c.pick]);
    Moves(s, s', tid, c.pick);
  }

  // ------------------------------------------- holding a capability or a permit

  lemma {:induction false} StashKeeps(s: Sys, tid: nat)
    requires Inv(s) && tid in s.tasks.m && s.tasks.m[tid].HoldingCapability? && s.tasks.m[tid].onward.ConfirmStash?
    ensures var t := s.tasks.m[tid]; Inv(StepCapability(s, tid, t.gated, t.capability, t.onward))
  {
    var t := s.tasks.m[tid];
    OfAction(s, t.capability.action);
    assert t.capability.action in Holds(t);
    OfTask(s, tid);
    SoloMoves(s, StepCapability(s, tid, t.gated, t.capability, t.onward), tid, t.capability.action);
  }

  lemma {:induction false} ArmBeginKeeps(s: Sys, tid: nat)
    requires Inv(s) && tid in s.tasks.m && s.tasks.m[tid].HoldingCapability? && s.tasks.m[tid].onward.ArmBegin?
    ensures var t := s.tasks.m[tid]; Inv(StepCapability(s, tid, t.gated, t.capability, t.onward))
  {
    var t := s.tasks.m[tid];
    BeginElsewhere(s.journal, t.capability, s.minted);
    OfAction(s, t.capability.action);
    assert t.capability.action in Holds(t);
    OfTask(s, tid);
    SoloMoves(s, StepCapability(s, tid, t.gated, t.capability, t.onward), tid, t.capability.action);
  }

  lemma {:induction false} CancelBeginKeeps(s: Sys, tid: nat)
    requires Inv(s) && tid in s.tasks.m && s.tasks.m[tid].HoldingCapability? && s.tasks.m[tid].onward.CancelBegin?
    ensures var t := s.tasks.m[tid]; Inv(StepCapability(s, tid, t.gated, t.capability, t.onward))
  {
    var t := s.tasks.m[tid];
    BeginElsewhere(s.journal, t.capability, s.minted);
    OfAction(s, t.capability.action);
    assert t.capability.action in Holds(t);
    OfTask(s, tid);
    SoloMoves(s, StepCapability(s, tid, t.gated, t.capability, t.onward), tid, t.capability.action);
  }

  lemma {:induction false} DeliveredOnce(log: seq<Event>, e: Event, a: Uuid)
    requires e.Delivered? && e.permitted && e.action.id == a
    ensures LogElsewhere(log, log + [e], a) && Deliveries(log + [e], a) == Deliveries(log, a) + 1
  {
    forall b: Uuid ensures Deliveries(log + [e], b) == Deliveries(log, b) + (if b == a then 1 else 0) {
      DeliveriesAppend(log, e, b);
    }
  }

  /** The permit goes into the executing table at the moment the executor is handed the action. */
  lemma {:induction false} DeliverMoves(s: Sys, s': Sys, tid: nat, session: Uuid, head: QueuedAction)
    requires Inv(s) && TaskStep(s, s', tid) && s.tasks.m[tid].HoldingPermit? && head.id == s.tasks.m[tid].permit.action
    requires tid in s'.tasks.m ==> s'.tasks.m[tid].Bare?
    requires s'.executing == s.executing.With(head.id, ExecutingDispatch(session, s.tasks.m[tid].permit))
    requires s'.place == s.place.With(head.id, AtExecuting) && s'.log == s.log + [Delivered(head, true)]
    requires s'.book == s.book && s'.pending == s.pending && s'.prepared == s.prepared && s'.journal == s.journal
    ensures Inv(s')
  {
    hide Inv;
    var a := head.id;
    DeliveredOnce(s.log, Delivered(head, true), a);
    OfAction(s, a);
    assert a in Holds(s.tasks.m[tid]);
    SoloMoves(s, s', tid, a);
  }

  lemma {:induction false} DeliverKeeps(s: Sys, tid: nat, c: Choice)
    requires Inv(s) && tid in s.tasks.m && s.tasks.m[tid].HoldingPermit? && s.tasks.m[tid].after.ArmDeliver?
    ensures var t := s.tasks.m[tid]; Inv(StepPermit(s, tid, t.gated, t.permit, t.after, c))
  {
    var t := s.tasks.m[tid];
    var b := t.after.batch;
    OfTask(s, tid);
    DeliverMoves(s, StepPermit(s, tid, t.gated, t.permit, t.after, c), tid, b.session, b.head);
  }

  lemma {:induction false} CancelFinishKeeps(s: Sys, tid: nat, c: Choice)
    requires Inv(s) && tid in s.tasks.m && s.tasks.m[tid].HoldingPermit? && s.tasks.m[tid].after.CancelFinish?
    ensures var t := s.tasks.m[tid]; Inv(StepPermit(s, tid, t.gated, t.permit, t.after, c))
  {
    hide Inv, A.Linearize;
    var t := s.tasks.m[tid];
    LinearizeElsewhere(s.journal, t.permit, J.NotDispatched, c.ok, s.minted);
    OfAction(s, t.permit.action);
    assert t.permit.action in Holds(t);
    OfTask(s, tid);
    SoloMoves(s, StepPermit(s, tid, t.gated, t.permit, t.after, c), tid, t.permit.action);
  }

  /** A handler without authority goes on, with a journal that has learnt nothing of authority. */
  lemma {:induction false} ObservingKeeps(s: Sys, tid: nat, j: A.State, minted: Uuid, log: seq<Event>, pc: Pc)
    requires Inv(s) && tid in s.tasks.m && s.tasks.m[tid].Bare? && !s.tasks.m[tid].gated && !GatedPc(pc)
    requires Drifts(s.journal, j) && SameDeliveries(s.log, log) && s.minted <= minted
    ensures Inv(Become(s.(journal := j, minted := minted, log := log), tid, Bare(false, pc)))
  {
    hide Inv, ActionInv, Drifts, SameDeliveries;
    Quiet(s, Become(s.(journal := j, minted := minted, log := log), tid, Bare(false, pc)), tid);
  }

  lemma {:induction false} EndsKeeps(s: Sys, tid: nat, j: A.State, a: Uuid, status: Status)
    requires Inv(s) && tid in s.tasks.m && s.tasks.m[tid].Bare? && Drifts(s.journal, j)
    ensures Inv(Finish(SetStatus(s.(journal := j), a, status), tid))
  {
    hide Inv, ActionInv, Drifts;
    Quiet(s, Finish(SetStatus(s.(journal := j), a, status), tid), tid);
  }

  lemma {:induction false} SameJournal(s: Sys)
    ensures Drifts(s.journal, s.journal) && SameDeliveries(s.log, s.log)
  {
  }

  // ---------------------------------------------------------------------- arm

  lemma {:induction false} ArmSnapshotKeeps(codec: Codec, s: Sys, tid: nat)
    requires Inv(s) && tid in s.tasks.m && s.tasks.m[tid].Bare? && s.tasks.m[tid].pc.ArmSnapshot?
    ensures Inv(StepArm(codec, s, tid, s.tasks.m[tid].pc))
  {
    hide Inv;
    OfTask(s, tid);
    Quiet(s, StepArm(codec, s, tid, s.tasks.m[tid].pc), tid);
  }

  /** Going on with the batch: nothing the invariant speaks of has changed. */
  lemma {:induction false} OnwardKeeps(s: Sys, s1: Sys, tid: nat, b: Batch)
    requires Inv(s) && tid in s.tasks.m && s.tasks.m[tid].Bare? && !s.tasks.m[tid].gated
    requires s1.tasks == s.tasks && s1.gate == s.gate && s1.minted == s.minted && s1.book == s.book
    requires s1.place == s.place && s1.pending == s.pending && s1.prepared == s.prepared
    requires s1.executing == s.executing && s1.journal == s.journal && SameDeliveries(s.log, s1.log)
    ensures Inv(Onward(s1, tid, b))
  {
    hide Inv, ActionInv, FacetOf, SameDeliveries;
    SameJournal(s);
    Quiet(s, Onward(s1, tid, b), tid);
  }

  lemma {:induction false} ArmGivesUpKeeps(codec: Codec, s: Sys, tid: nat)
    requires Inv(s) && tid in s.tasks.m && s.tasks.m[tid].Bare?
    requires s.tasks.m[tid].pc.ArmRefuse? || s.tasks.m[tid].pc.RejectRecord?
    ensures Inv(StepArm(codec, s, tid, s.tasks.m[tid].pc))
  {
    hide Inv, SameDeliveries, Onward;
    var b := s.tasks.m[tid].pc.batch;
    OfTask(s, tid);
    SameJournal(s);
    if s.tasks.m[tid].pc.ArmRefuse? {
      OnwardKeeps(s, SetStatus(s, b.head.id, DispatchAuthorityFailed), tid, b);
    } else {
      OnwardKeeps(s, SetStatus(s, b.head.id, PayloadAuthorityFailed), tid, b);
    }
  }

  lemma {:induction false} ArmingKeeps(codec: Codec, s: Sys, tid: nat)
    requires Inv(s) && tid in s.tasks.m && s.tasks.m[tid].Bare? && s.tasks.m[tid].pc.Arming?
    ensures Inv(StepArm(codec, s, tid, s.tasks.m[tid].pc))
  {
    hide Inv, SameDeliveries, Drifts, Onward, VerifiedAtDispatch;
    var b := s.tasks.m[tid].pc.batch;
    OfTask(s, tid);
    SameJournal(s);
    if b.head.id !in b.tracked {
      PassingDeliversNothing(s.log, b.head);
      OnwardKeeps(s, s.(log := s.log + [Delivered(b.head, false)]), tid, b);
    } else if VerifiedAtDispatch(codec, s.key, BindingFor(s, b.head.id), b.head.kind) {
      ObservingKeeps(s, tid, s.journal, s.minted, s.log, ArmTake(b));
    } else {
      ObservingKeeps(s, tid, s.journal, s.minted, s.log, RejectTake(b));
    }
  }

  /** A delivery without a permit is none of those the invariant counts. */
  lemma {:induction false} PassingDeliversNothing(log: seq<Event>, x: QueuedAction)
    ensures SameDeliveries(log, log + [Delivered(x, false)])
  {
    forall a: Uuid ensures Deliveries(log + [Delivered(x, false)], a) == Deliveries(log, a) {
      DeliveriesAppend(log, Delivered(x, false), a);
    }
  }

  lemma {:induction false} ArmTakeKeeps(codec: Codec, s: Sys, tid: nat)
    requires Inv(s) && tid in s.tasks.m && s.tasks.m[tid].Bare? && s.tasks.m[tid].pc.ArmTake?
    ensures Inv(StepArm(codec, s, tid, s.tasks.m[tid].pc))
  {
    var b := s.tasks.m[tid].pc.batch;
    var a := b.head.id;
    OfTask(s, tid);
    OfAction(s, a);
    if a !in s.prepared.m {
      Quiet(s, StepArm(codec, s, tid, s.tasks.m[tid].pc), tid);
    } else if s.prepared.m[a].session != b.session {
      TakeLostKeeps(s, tid, a, ArmRefuse(b));
    } else {
      TakeKeeps(s, tid, a, HoldingCapability(false, s.prepared.m[a].capability, ArmBegin(b)));
    }
  }

  lemma {:induction false} RejectTakeKeeps(codec: Codec, s: Sys, tid: nat)
    requires Inv(s) && tid in s.tasks.m && s.tasks.m[tid].Bare? && s.tasks.m[tid].pc.RejectTake?
    ensures Inv(StepArm(codec, s, tid, s.tasks.m[tid].pc))
  {
    var b := s.tasks.m[tid].pc.batch;
    var a := b.head.id;
    OfTask(s, tid);
    if a !in s.prepared.m {
      Quiet(s, StepArm(codec, s, tid, s.tasks.m[tid].pc), tid);
    } else {
      TakeKeeps(s, tid, a, HoldingCapability(false, s.prepared.m[a].capability, CancelBegin(RejectRecord(b))));
    }
  }

  // --------------------------------------------------------------- completion

  lemma {:induction false} CompleteTakeKeeps(s: Sys, tid: nat)
    requires Inv(s) && tid in s.tasks.m && s.tasks.m[tid].Bare? && s.tasks.m[tid].pc.CompleteTake?
    ensures var pc := s.tasks.m[tid].pc; Inv(StepCompleteTake(s, tid, pc.session, pc.id, pc.succeeded))
  {
    hide FacetOf, Agree;
    var pc := s.tasks.m[tid].pc;
    var s' := StepCompleteTake(s, tid, pc.session, pc.id, pc.succeeded);
    OfTask(s, tid);
    OfAction(s, pc.id);
    if pc.id in s.executing.m { SoloMoves(s, s', tid, pc.id); } else { Quiet(s, s', tid); }
  }

  lemma {:induction false} CompletingKeeps(s: Sys, tid: nat, c: Choice)
    requires Inv(s) && tid in s.tasks.m && s.tasks.m[tid].Completing?
    ensures var t := s.tasks.m[tid]; Inv(StepCompleting(s, tid, t.permit, t.succeeded, c))
  {
    hide FacetOf, WellFormed, A.Linearize;
    var t := s.tasks.m[tid];
    var result := if t.succeeded then J.DispatchedFull else J.DispatchAmbiguous;
    LinearizeElsewhere(s.journal, t.permit, result, c.ok, s.minted);
    OfAction(s, t.permit.action);
    assert t.permit.action in Holds(t);
    SoloMoves(s, StepCompleting(s, tid, t.permit, t.succeeded, c), tid, t.permit.action);
  }

  // ----------------------------------------------------------- reconciliation

  /** Recording an observed outcome or a commit only moves on an action whose authority is used up. */
  lemma {:induction false} OutcomeDrifts(j: A.State, a: Uuid, t: J.Transition, durable: bool)
    requires t.PostconditionRecorded? || t.Committed?
    ensures Drifts(j, A.Record(j, a, t, durable).0)
  {
    forall b: Uuid ensures Drift(FacetOf(j, b), FacetOf(A.Record(j, a, t, durable).0, b)) {
      FacetAppend(j, a, t, b);
    }
  }

  lemma {:induction false} BeginningDrifts(j: A.State, a: Uuid, minted: Uuid)
    ensures Drifts(j, A.BeginObservation(j, a, minted).0)
  {
  }

  lemma {:induction false} ObservationDrifts(j: A.State, p: A.ObservationPermit, snap: A.Snapshot)
    ensures Drifts(j, A.AbandonObservation(j, p).0)
    ensures Drifts(j, A.CompleteObservation(j, p, snap).0)
  {
  }

  lemma {:induction false} ReconcileQuietKeeps(s: Sys, tid: nat, c: Choice)
    requires Inv(s) && tid in s.tasks.m && s.tasks.m[tid].Bare?
    requires s.tasks.m[tid].pc.ReconcileBefore? || s.tasks.m[tid].pc.ReconcileFinish?
    ensures Inv(StepReconcile(s, tid, s.tasks.m[tid].pc, c))
  {
    hide Inv, SetStatus;
    OfTask(s, tid);
    SameJournal(s);
    match s.tasks.m[tid].pc
    case ReconcileBefore(a, initial) =>
      if SurfaceIs(c.surface, c.lineage, initial.authority) {
        ObservingKeeps(s, tid, s.journal, s.minted, s.log, ReconcileBegin(a, initial, c.surface.value));
      } else {
        EndsKeeps(s, tid, s.journal, a, ReconciliationRequired);
      }
    case ReconcileFinish(a, status) => EndsKeeps(s, tid, s.journal, a, status);
  }

  lemma {:induction false} ReconcileBeginKeeps(s: Sys, tid: nat, c: Choice)
    requires Inv(s) && tid in s.tasks.m && s.tasks.m[tid].Bare? && s.tasks.m[tid].pc.ReconcileBegin?
    ensures Inv(StepReconcile(s, tid, s.tasks.m[tid].pc, c))
  {
    hide Inv, SetStatus, Drifts, A.MayObserve;
    var pc := s.tasks.m[tid].pc;
    OfTask(s, tid);
    SameJournal(s);
    var (j, permit) := A.BeginObservation(s.journal, pc.id, s.minted);
    BeginningDrifts(s.journal, pc.id, s.minted);
    if permit.None? {
      EndsKeeps(s, tid, s.journal, pc.id, ReconciliationRequired);
    } else {
      ObservingKeeps(s, tid, j, s.minted + 1, s.log, ReconcileSnapshot(pc.id, pc.initial, pc.before, permit.value));
    }
  }

  lemma {:induction false} ReconcileSnapshotKeeps(s: Sys, tid: nat, c: Choice)
    requires Inv(s) && tid in s.tasks.m && s.tasks.m[tid].Bare? && s.tasks.m[tid].pc.ReconcileSnapshot?
    ensures Inv(StepReconcile(s, tid, s.tasks.m[tid].pc, c))
  {
    hide Inv, SetStatus, Drifts, SameDeliveries, A.CompleteObservation, A.AbandonObservation;
    var pc := s.tasks.m[tid].pc;
    OfTask(s, tid);
    SameJournal(s);
    var snap := A.Snapshot(c.receiptId, pc.initial.authority.provider, pc.initial.authority.target,
                           pc.observing.grant.cut);
    ObservationDrifts(s.journal, pc.observing, snap);
    if !c.ok || !SurfaceIs(c.surfaceAfter, c.lineageAfter, pc.initial.authority) {
      EndsKeeps(s, tid, A.AbandonObservation(s.journal, pc.observing).0, pc.id, ReconciliationRequired);
    } else {
      var (j, receipt) := A.CompleteObservation(s.journal, pc.observing, snap);
      if receipt.None? {
        EndsKeeps(s, tid, j, pc.id, ReconciliationRequired);
      } else {
        var seen := Observed(pc.id, pc.before, c.surfaceAfter.value, pc.observing.grant.cut);
        ObservingDeliversNothing(s.log, seen);
        ObservingKeeps(s, tid, j, s.minted, s.log + [seen], ReconcileReceipt(pc.id, pc.initial, receipt.value));
      }
    }
  }

  lemma {:induction false} ObservingDeliversNothing(log: seq<Event>, e: Event)
    requires e.Observed?
    ensures SameDeliveries(log, log + [e])
  {
    forall b: Uuid ensures Deliveries(log + [e], b) == Deliveries(log, b) { DeliveriesAppend(log, e, b); }
  }

  lemma {:induction false} ReconcileReceiptKeeps(s: Sys, tid: nat, c: Choice)
    requires Inv(s) && tid in s.tasks.m && s.tasks.m[tid].Bare? && s.tasks.m[tid].pc.ReconcileReceipt?
    ensures Inv(StepReconcile(s, tid, s.tasks.m[tid].pc, c))
  {
    hide Inv, SetStatus, Drifts, Draft, Evidence, J.AdmittedEnvelope;
    var pc := s.tasks.m[tid].pc;
    OfTask(s, tid);
    SameJournal(s);
    if StepReconcile(s, tid, pc, c) == Unresolvable(s, tid, pc.id) {
      EndsKeeps(s, tid, s.journal, pc.id, ReconciliationRequired);
    } else {
      var envelope := J.AdmittedEnvelope(s.journal.entries, pc.id);
      var d := Draft(pc.observed, envelope.value.expected, Evidence(pc.initial.expected, c.verdicts));
      var receipt := J.Receipt(d, (d.action, s.journal.nextSequence), s.journal.nextSequence);
      OutcomeDrifts(s.journal, d.action, J.PostconditionRecorded(receipt), true);
      ObservingKeeps(s, tid, A.RecordPostcondition(s.journal, d, true).0, s.minted, s.log,
                     ReconcileCommit(pc.id, d.verdict));
    }
  }

  lemma {:induction false} ReconcileCommitKeeps(s: Sys, tid: nat, c: Choice)
    requires Inv(s) && tid in s.tasks.m && s.tasks.m[tid].Bare? && s.tasks.m[tid].pc.ReconcileCommit?
    ensures Inv(StepReconcile(s, tid, s.tasks.m[tid].pc, c))
  {
    hide Inv, Drifts, A.Record;
    var pc := s.tasks.m[tid].pc;
    OfTask(s, tid);
    SameJournal(s);
    if pc.verdict != J.VerifiedExpected {
      ObservingKeeps(s, tid, s.journal, s.minted, s.log, ReconcileFinish(pc.id, StatusOf(pc.verdict)));
    } else {
      var (j, ok) := A.Record(s.journal, pc.id, J.Committed, c.ok);
      OutcomeDrifts(s.journal, pc.id, J.Committed, c.ok);
      ObservingKeeps(s, tid, j, s.minted, s.log,
                     ReconcileFinish(pc.id, if ok then VerifiedExpected else ReconciliationRequired));
    }
  }

  // ---------------------------------------------------- starting and restarting

  /** Records, queue, bindings and key are no part of the invariant. */
  lemma {:induction false} SameAuthority(s: Sys, s': Sys)
    requires Inv(s) && s.minted <= s'.minted && s'.tasks == s.tasks && s'.gate == s.gate
    requires s'.journal == s.journal && s'.book == s.book && s'.place == s.place
    requires s'.pending == s.pending && s'.prepared == s.prepared && s'.executing == s.executing
    requires SameDeliveries(s.log, s'.log)
    ensures Inv(s')
  {
    forall b: Uuid ensures ActionInv(s', b) {
      OfAction(s, b);
      assert TasksAgree(s', b) by { assert TasksAgree(s, b); }
    }
  }

  lemma {:induction false} SpawnKeeps(s: Sys, gated: bool, pc: Pc)
    requires Inv(s) && gated == GatedPc(pc)
    ensures Inv(Spawn(s, gated, pc))
  {
    var s' := Spawn(s, gated, pc);
    if !(gated && s.gate.Some?) {
      forall b: Uuid ensures ActionInv(s', b) {
        OfAction(s, b);
        SpawnAgrees(s, s', gated, pc, b);
      }
    }
  }

  lemma {:induction false} SpawnAgrees(s: Sys, s': Sys, gated: bool, pc: Pc, b: Uuid)
    requires TasksAgree(s, b) && s.minted !in s.tasks.m
    requires s'.tasks == s.tasks.With(s.minted, Bare(gated, pc)) && s'.place == s.place && s'.journal == s.journal
    ensures TasksAgree(s', b)
  {
  }

  lemma {:induction false} RestartKeeps(codec: Codec, s: Sys, keyAvailable: bool)
    requires Inv(s)
    ensures Inv(Step(codec, s, Restart(keyAvailable)))
  {
    hide J.AdmittedEnvelope, Continue;
    var s' := Step(codec, s, Restart(keyAvailable));
    forall b: Uuid ensures ActionInv(s', b) {
      OfAction(s, b);
    }
  }

  // ------------------------------------------------------------------ all steps

  lemma {:induction false} BareKeeps(codec: Codec, s: Sys, tid: nat, c: Choice)
    requires Inv(s) && tid in s.tasks.m && s.tasks.m[tid].Bare?
    ensures Inv(Continue(codec, s, tid, s.tasks.m[tid], c))
  {
    hide Inv, ActionInv;
    match s.tasks.m[tid].pc
    case PlanPrunePending(_) => PrunePendingKeeps(codec, s, tid, c);
    case PlanPruneRecords(_) => PlanQuietKeeps(codec, s, tid, c);
    case PlanCapacity(_) => PlanQuietKeeps(codec, s, tid, c);
    case PlanBind(_) => PlanBindKeeps(codec, s, tid, c);
    case ConfirmConsume(_, _, _) => ConsumeKeeps(s, tid, c);
    case ConfirmRecord(_) => ConfirmQuietKeeps(s, tid, c);
    case ConfirmEnqueue(_) => ConfirmQuietKeeps(s, tid, c);
    case RollbackRecord(_) => ConfirmQuietKeeps(s, tid, c);
    case RollbackTake(_) => RollbackTakeKeeps(s, tid, c);
    case RollbackEnd(_) => ConfirmQuietKeeps(s, tid, c);
    case ReleasePending(_) => ReleasePendingKeeps(s, tid);
    case ReleasePrepared(_) => ReleasePreparedKeeps(s, tid);
    case ReleaseQueue(_) => ReleaseQueueKeeps(s, tid);
    case ArmSnapshot(_, _) => ArmSnapshotKeeps(codec, s, tid);
    case Arming(_) => ArmingKeeps(codec, s, tid);
    case ArmTake(_) => ArmTakeKeeps(codec, s, tid);
    case ArmRefuse(_) => ArmGivesUpKeeps(codec, s, tid);
    case RejectTake(_) => RejectTakeKeeps(codec, s, tid);
    case RejectRecord(_) => ArmGivesUpKeeps(codec, s, tid);
    case CompleteTake(_, _, _) => CompleteTakeKeeps(s, tid);
    case ReconcileBefore(_, _) => ReconcileQuietKeeps(s, tid, c);
    case ReconcileBegin(_, _, _) => ReconcileBeginKeeps(s, tid, c);
    case ReconcileSnapshot(_, _, _, _) => ReconcileSnapshotKeeps(s, tid, c);
    case ReconcileReceipt(_, _, _) => ReconcileReceiptKeeps(s, tid, c);
    case ReconcileCommit(_, _) => ReconcileCommitKeeps(s, tid, c);
    case ReconcileFinish(_, _) => ReconcileQuietKeeps(s, tid, c);
  }

  lemma {:induction false} HoldingKeeps(codec: Codec, s: Sys, tid: nat, c: Choice)
    requires Inv(s) && tid in s.tasks.m && !s.tasks.m[tid].Bare?
    ensures Inv(Continue(codec, s, tid, s.tasks.m[tid], c))
  {
    hide Inv, ActionInv;
    match s.tasks.m[tid]
    case HoldingPlan(_, at) =>
      match at {
        case PlanIntent => PlanIntentKeeps(s, tid, c);
        case PlanOperation => PlanBoundKeeps(s, tid, c);
        case PlanPayload => PlanBoundKeeps(s, tid, c);
        case PlanInsert => PlanInsertKeeps(s, tid, c);
        case ConfirmAuthorize => AuthorizeKeeps(codec, s, tid, c);
        case ConfirmPrepare(_) => PrepareKeeps(codec, s, tid, c);
        case _ => ConfirmChecksKeep(codec, s, tid, c);
      }
    case HoldingCapability(_, _, onward) =>
      match onward {
        case ConfirmStash(_) => StashKeeps(s, tid);
        case ArmBegin(_) => ArmBeginKeeps(s, tid);
        case CancelBegin(_) => CancelBeginKeeps(s, tid);
      }
    case HoldingPermit(_, _, after) =>
      match after {
        case ArmDeliver(_) => DeliverKeeps(s, tid, c);
        case CancelFinish(_) => CancelFinishKeeps(s, tid, c);
      }
    case Completing(_, _) => CompletingKeeps(s, tid, c);
    case Draining(_, _, _, current) =>
      match current {
        case TakeExecuting => TakeExecutingKeeps(s, tid, c);
        case Beginning(_) => DrainBeginKeeps(s, tid, c);
        case Refusing(_) => DrainRefuseKeeps(s, tid, c);
        case Idle => DrainIdleKeeps(s, tid, c);
      }
  }

  /** One step, of any handler or of the environment. */
  lemma {:induction false} StepKeeps(codec: Codec, s: Sys, l: Label)
    requires Inv(s)
    ensures Inv(Step(codec, s, l))
  {
    hide Inv, ActionInv, Continue, MoveAll;
    match l
    case StartPlan(r) => SpawnKeeps(s, true, PlanPrunePending(r));
    case StartConfirm(session, a, confirmation) => SpawnKeeps(s, true, ConfirmConsume(session, a, confirmation));
    case StartRelease(session) => SpawnKeeps(s, true, ReleasePending(session));
    case StartArm(session) =>
      var s0 := s.(queue := RemainderOf(s.queue, session, TAKE_LIMIT));
      SameAuthority(s, s0);
      SpawnKeeps(s0, false, ArmSnapshot(session, TakenOf(s.queue, session, TAKE_LIMIT)));
    case StartComplete(session, a, succeeded) => SpawnKeeps(s, false, CompleteTake(session, a, succeeded));
    case StartReconcile(session, a) =>
      if a in s.records.m {
        SameAuthority(s, SetStatus(s, a, PendingReconciliation));
        SpawnKeeps(SetStatus(s, a, PendingReconciliation), false, ReconcileBefore(a, s.records.m[a]));
      }
    case Advance(tid, c) =>
      if tid in s.tasks.m {
        if s.tasks.m[tid].Bare? { BareKeeps(codec, s, tid, c); } else { HoldingKeeps(codec, s, tid, c); }
      }
    case ExpireRecord(_) => SameAuthority(s, Step(codec, s, l));
    case EnqueuePublic(_, _) => SameAuthority(s, Step(codec, s, l));
    case DrainPublic(session) =>
      forall b: Uuid { DeliveriesUnpermitted(s.log, TakenOf(s.queue, session, PUBLIC_LIMIT), b); }
      SameAuthority(s, Step(codec, s, l));
    case DropQueued(_) => SameAuthority(s, Step(codec, s, l));
    case Redeliver(_) => SameAuthority(s, Step(codec, s, l));
    case Restart(keyAvailable) => RestartKeeps(codec, s, keyAvailable);
  }

}
