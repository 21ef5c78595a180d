/**
 * Conservation of dispatch authority: in every reachable state the authority
 * of a planned action is in exactly one place, and that place says how many
 * deliveries and receipts the action can have had.
 */
module ManagedAuthority {
  import opened Common
  import opened ManagedPayload
  import opened Managed
  import J = Journal
  import A = JournalApi

  /** What the journal knows of one action. */
  datatype Facet = Facet(
    instance: Uuid,
    state: Option<J.RecoveryState>,
    receipts: nat,
    refusals: nat,
    prepared: Option<A.Grant>,
    execution: Option<A.Grant>)

  ghost function FacetOf(j: A.State, a: Uuid): Facet {
    Facet(j.instance,
          J.RecoveryOf(j.entries, a),
          J.CountOf(j.entries, a, J.IsDispatchReceipt),
          J.CountOf(j.entries, a, J.IsNotDispatchedReceipt),
          if a in j.prepared then Some(j.prepared[a]) else None,
          if a in j.execution then Some(j.execution[a]) else None)
  }

  /** How often the executor was handed an action under a journal permit. */
  ghost function Deliveries(log: seq<Event>, a: Uuid): nat {
    if log == [] then 0
    else
      var n := |log| - 1;
      Deliveries(log[..n], a) + (if log[n].Delivered? && log[n].permitted && log[n].action.id == a then 1 else 0)
  }

  lemma {:induction false} LastUnpermitted(log: seq<Event>, q: seq<QueuedAction>)
    ensures q == [] ==> log + Unpermitted(q) == log
    ensures q != [] ==>
              log + Unpermitted(q) == (log + Unpermitted(q[..|q| - 1])) + [Delivered(q[|q| - 1], false)]
  {
    if q != [] { assert Unpermitted(q) == Unpermitted(q[..|q| - 1]) + [Delivered(q[|q| - 1], false)]; }
  }

  lemma {:induction false} DeliveriesUnpermitted(log: seq<Event>, q: seq<QueuedAction>, a: Uuid)
    ensures Deliveries(log + Unpermitted(q), a) == Deliveries(log, a)
  {
    hide Unpermitted, Deliveries;
    LastUnpermitted(log, q);
    if q != [] {
      var n := |q| - 1;
      DeliveriesUnpermitted(log, q[..n], a);
      DeliveriesAppend(log + Unpermitted(q[..n]), Delivered(q[n], false), a);
    }
  }

  lemma DeliveriesAppend(log: seq<Event>, e: Event, a: Uuid)
    ensures Deliveries(log + [e], a) ==
            Deliveries(log, a) + (if e.Delivered? && e.permitted && e.action.id == a then 1 else 0)
  {
    assert (log + [e])[..|log|] == log;
  }

  // ---------------------------------------------------------------- invariant

  predicate CapabilityOk(f: Facet, c: A.Capability, a: Uuid) {
    c.action == a && c.instance == f.instance && f.prepared == Some(c.grant)
  }

  predicate PermitOk(f: Facet, p: A.Permit, a: Uuid) {
    p.action == a && p.instance == f.instance && f.execution == Some(p.grant)
  }

  /** The token a task holds for an action is the live one. */
  predicate TokenOk(f: Facet, t: Task, a: Uuid) {
    match t
    case HoldingCapability(_, c, _) => CapabilityOk(f, c, a)
    case HoldingPermit(_, p, _) => PermitOk(f, p, a)
    case Completing(p, _) => PermitOk(f, p, a)
    case Draining(_, cs, ps, current) =>
      && (a in cs ==> CapabilityOk(f, cs[a], a))
      && (a in ps ==> PermitOk(f, ps[a], a))
      && (current.Beginning? && current.capability.action == a ==> CapabilityOk(f, current.capability, a))
      && (current.Refusing? && current.permit.action == a ==> PermitOk(f, current.permit, a))
    case _ => true
  }

  predicate WellFormed(t: Task) {
    match t
    case Bare(gated, pc) => gated == GatedPc(pc)
    case HoldingCapability(gated, c, onward) =>
      (match onward
       case ConfirmStash(p) => gated && p.action.id == c.action
       case ArmBegin(b) => !gated && b.head.id == c.action
       case CancelBegin(next) => gated == GatedPc(next) && Resumes(next))
    case HoldingPermit(gated, p, after) =>
      (match after
       case ArmDeliver(b) => !gated && b.head.id == p.action
       case CancelFinish(next) => gated == GatedPc(next) && Resumes(next))
    case Draining(_, cs, ps, current) =>
      && cs.Keys !! ps.Keys
      && (current.TakeExecuting? ==> ps == map[])
      && (current.Beginning? ==> current.capability.action !in cs.Keys + ps.Keys)
      && (current.Refusing? ==> current.permit.action !in cs.Keys + ps.Keys)
    case _ => true
  }

  /** What a cancelling handler goes back to. */
  predicate Resumes(pc: Pc) { pc.RollbackEnd? || pc.RejectRecord? }

  predicate GatedPc(pc: Pc) {
    IsPlanPc(pc) || IsConfirmPc(pc) || pc.ReleasePending? || pc.ReleasePrepared?
  }

  predicate At(s: Sys, a: Uuid, p: Place) { a in s.place.m && s.place.m[a] == p }

  function StageAt(p: Place): Option<Stage> {
    match p
    case AtPending => Some(Planned)
    case AtPrepared => Some(Capable)
    case AtExecuting => Some(Running)
    case InTask(_, stage) => Some(stage)
    case Spent => None
  }

  /** Deliveries and receipts an action may have had, by how far its authority has got. */
  predicate StageOk(f: Facet, deliveries: nat, stage: Option<Stage>) {
    match stage
    case Some(Planned) => J.Rank(f.state) <= 2 && deliveries == 0 && f.receipts == 0 && f.refusals == 0
    case Some(Capable) => J.Rank(f.state) >= 3 && deliveries == 0 && f.receipts == 0 && f.refusals == 0
    case Some(Permitted) => J.Rank(f.state) >= 3 && deliveries == 0 && f.receipts == 0 && f.refusals == 0
    case Some(Running) => deliveries == 1 && f.receipts == 0 && f.refusals == 0 && J.Rank(f.state) >= 3
    case None => deliveries + f.refusals <= 1 && (deliveries == 1 ==> J.Rank(f.state) >= 3)
  }

  ghost predicate TasksAgree(s: Sys, a: Uuid) {
    && (forall t | t in s.tasks.m ::
          (a in Holds(s.tasks.m[t]) <==> a in s.place.m && s.place.m[a].InTask? && s.place.m[a].task == t))
    && (forall t | t in s.tasks.m && a in Holds(s.tasks.m[t]) ::
          s.place.m[a].stage == Holds(s.tasks.m[t])[a] && TokenOk(FacetOf(s.journal, a), s.tasks.m[t], a))
    && (a in s.place.m && s.place.m[a].InTask? ==> s.place.m[a].task in s.tasks.m)
  }

  ghost predicate TablesAgree(s: Sys, a: Uuid) {
    && (a in s.pending.m <==> At(s, a, AtPending))
    && (a in s.prepared.m <==> At(s, a, AtPrepared))
    && (a in s.executing.m <==> At(s, a, AtExecuting))
    && (a in s.pending.m ==> s.pending.m[a].action.id == a)
    && (a in s.prepared.m ==> CapabilityOk(FacetOf(s.journal, a), s.prepared.m[a].capability, a))
    && (a in s.executing.m ==> PermitOk(FacetOf(s.journal, a), s.executing.m[a].permit, a))
  }

  ghost predicate ActionInv(s: Sys, a: Uuid) {
    && (a in s.place.m <==> a in s.book.m)
    && (a in s.place.m ==> a < s.minted)
    && TablesAgree(s, a)
    && TasksAgree(s, a)
    && (if a in s.place.m then StageOk(FacetOf(s.journal, a), Deliveries(s.log, a), StageAt(s.place.m[a]))
        else FacetOf(s.journal, a).state.None? && FacetOf(s.journal, a).receipts == 0
             && FacetOf(s.journal, a).refusals == 0 && Deliveries(s.log, a) == 0)
  }

  ghost predicate GateInv(s: Sys) {
    && (s.gate.Some? ==> s.gate.value in s.tasks.m && NeedsGate(s.tasks.m[s.gate.value]))
    && (forall t | t in s.tasks.m :: t < s.minted && WellFormed(s.tasks.m[t])
                                   && (NeedsGate(s.tasks.m[t]) ==> s.gate == Some(t)))
  }

  ghost predicate Inv(s: Sys) {
    && GateInv(s)
    && (forall a: Uuid :: ActionInv(s, a))
  }

  lemma {:induction false} OfAction(s: Sys, a: Uuid)
    requires Inv(s)
    ensures ActionInv(s, a)
  {
  }

  lemma {:induction false} OfTask(s: Sys, tid: nat)
    requires Inv(s) && tid in s.tasks.m
    ensures tid < s.minted && WellFormed(s.tasks.m[tid])
    ensures NeedsGate(s.tasks.m[tid]) ==> s.gate == Some(tid)
  {
  }

  // ------------------------------------------------- journal calls touch one action

  lemma FacetAppend(j: A.State, a: Uuid, t: J.Transition, b: Uuid)
    ensures b != a ==> FacetOf(A.Appended(j, a, t), b) == FacetOf(j, b)
    ensures FacetOf(A.Appended(j, a, t), a) ==
            FacetOf(j, a).(state := Some(J.StateAfter(t)),
                           receipts := FacetOf(j, a).receipts + (if J.IsDispatchReceipt(t) then 1 else 0),
                           refusals := FacetOf(j, a).refusals + (if J.IsNotDispatchedReceipt(t) then 1 else 0))
  {
    var e := J.Entry(j.nextSequence, a, t);
    J.RecoveryAppend(j.entries, e, a);
    J.RecoveryAppend(j.entries, e, b);
    J.CountAppend(j.entries, e, a, J.IsDispatchReceipt);
    J.CountAppend(j.entries, e, b, J.IsDispatchReceipt);
    J.CountAppend(j.entries, e, a, J.IsNotDispatchedReceipt);
    J.CountAppend(j.entries, e, b, J.IsNotDispatchedReceipt);
  }
}
