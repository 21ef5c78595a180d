/** What plan and confirm achieve when nothing gets in their way. */
module ManagedConfirmProgress {
  import opened Common
  import opened ManagedPayload
  import opened Managed
  import opened ManagedAuthority
  import opened ManagedFacts
  import opened ManagedTheorems
  import opened ManagedProgress
  import J = Journal
  import A = JournalApi

  // -------------------------------------------------------------------- confirm

  /** The plan with its payload put in the place of the carrier. */
  function Materialized(codec: Codec, s: Sys, p: Plan): Option<Plan> {
    if p.payload.None? then Some(p)
    else
      match Materialize(codec, s.key, BindingFor(s, p.action.id), p.payload.value)
      case None => None
      case Some(kind) => Some(p.(action := p.action.(kind := kind), payload := None))
  }

  /** A confirmation that is good: of a plan of the session, its own, in time, on the planned surface, with room. */
  predicate ReadyToConfirm(s: Sys, tid: nat, c: Choice, a: Uuid, p: Plan) {
    && Doing(s, tid, Bare(true, ConfirmConsume(p.action.session, a, p.confirmation)))
    && a in s.pending.m && s.pending.m[a] == p && a !in c.expired && c.ok
    && c.surface == Some(p.authority) && c.lineage == Some((p.authority.provider, p.authority.target))
    && |s.records.m - c.expired| < MAX_RECORDS
  }

  /** What a confirm handler on its way leaves alone. */
  predicate Untouched(s: Sys, s': Sys) {
    && s'.journal == s.journal && s'.prepared == s.prepared && s'.executing == s.executing && s'.queue == s.queue
    && s'.key == s.key && s'.bindings == s.bindings && s'.minted == s.minted && s'.sent == s.sent && s'.log == s.log
  }

  lemma {:induction false} ConfirmTakes(codec: Codec, s: Sys, tid: nat, c: Choice, a: Uuid, p: Plan)
    returns (s1: Sys, s2: Sys)
    requires ReadyToConfirm(s, tid, c, a, p) && p.action.id == a
    ensures Moves(codec, s, tid, c, s1) && Moves(codec, s1, tid, c, s2)
    ensures Doing(s2, tid, HoldingPlan(p, ConfirmPrune)) && Untouched(s, s2) && s2.records == s.records
    ensures s2.pending == s.pending.Without({a})
  {
    hide StepReconcile, StepRelease, StepArm, StepPlanStart, StepPlan;
    s1 := Goes(codec, s, tid, c, Bare(true, ConfirmConsume(p.action.session, a, p.confirmation)));
    s2 := Goes(codec, s1, tid, c, HoldingPlan(p, ConfirmCheck));
  }

  lemma {:induction false} ConfirmMakesRoom(codec: Codec, s: Sys, tid: nat, c: Choice, p: Plan)
    returns (s1: Sys, s2: Sys)
    requires Doing(s, tid, HoldingPlan(p, ConfirmPrune)) && |s.records.m - c.expired| < MAX_RECORDS
    ensures Moves(codec, s, tid, c, s1) && Moves(codec, s1, tid, c, s2)
    ensures Doing(s2, tid, HoldingPlan(p, ConfirmMaterialize)) && Untouched(s, s2)
    ensures s2.records == s.records.Without(c.expired) && s2.pending == s.pending
  {
    hide StepReconcile, StepRelease, StepArm, StepPlanStart, StepPlan, StepConfirm;
    s1 := Goes(codec, s, tid, c, HoldingPlan(p, ConfirmPrune));
    s2 := Goes(codec, s1, tid, c, HoldingPlan(p, ConfirmCapacity));
  }

  lemma {:induction false} ConfirmFillsIn(codec: Codec, s: Sys, tid: nat, c: Choice, p: Plan, q: Plan)
    returns (s1: Sys)
    requires Doing(s, tid, HoldingPlan(p, ConfirmMaterialize)) && Materialized(codec, s, p) == Some(q)
    ensures Moves(codec, s, tid, c, s1) && Doing(s1, tid, HoldingPlan(q, ConfirmAuthorize)) && Untouched(s, s1)
    ensures s1.records == s.records && s1.pending == s.pending
  {
    hide StepReconcile, StepRelease, StepArm, StepPlanStart, StepPlan, StepConfirm;
    s1 := Goes(codec, s, tid, c, HoldingPlan(p, ConfirmMaterialize));
  }

  function Authorization(j: A.State, p: Plan): J.Entry {
    J.Entry(j.nextSequence, p.action.id, J.AuthorizationRecorded(p.envelope.authorizationRevision, true))
  }

  function Preparation(j: A.State, p: Plan, authorizationSequence: nat): J.Entry {
    J.Entry(j.nextSequence, p.action.id,
            J.DispatchPrepared(J.PreparationReceipt("dispatch-prepared", authorizationSequence,
                                                    p.envelope.preconditionCut, p.envelope.provider,
                                                    p.envelope.target)))
  }

  /** The journal knows the action and has not let it be prepared. */
  predicate Preparable(j: A.State, p: Plan) {
    && J.AdmittedEnvelope(j.entries, p.action.id) == Some(p.envelope)
    && J.RecoveryOf(j.entries, p.action.id) in {Some(J.Admitted), Some(J.AuthorizedNotDispatched)}
  }

  lemma {:induction false} AuthorizationIsTaken(j: A.State, p: Plan)
    requires Preparable(j, p)
    ensures var e := Authorization(j, p);
            var j' := A.Appended(j, p.action.id, e.transition);
            && A.Record(j, p.action.id, e.transition, true) == (j', true) && j'.entries == j.entries + [e]
            && J.AdmittedEnvelope(j'.entries, p.action.id) == Some(p.envelope)
            && J.RecoveryOf(j'.entries, p.action.id) == Some(J.AuthorizedNotDispatched)
            && J.LatestAuthorization(j'.entries, p.action.id) == Some(e)
  {
    var e := Authorization(j, p);
    J.RecoveryAppend(j.entries, e, p.action.id);
    J.EnvelopeAppend(j.entries, e, p.action.id);
  }

  lemma {:induction false} PreparationIsTaken(j: A.State, p: Plan, authorization: J.Entry, minted: Uuid)
    requires J.AdmittedEnvelope(j.entries, p.action.id) == Some(p.envelope)
    requires J.RecoveryOf(j.entries, p.action.id) == Some(J.AuthorizedNotDispatched)
    requires J.LatestAuthorization(j.entries, p.action.id) == Some(authorization)
    requires authorization.transition == J.AuthorizationRecorded(p.envelope.authorizationRevision, true)
    ensures var e := Preparation(j, p, authorization.sequence);
            var (j', capability) := A.RecordPrepared(j, p.action.id, e.transition.preparation, true, minted);
            && capability.Some? && capability.value.action == p.action.id && j'.entries == j.entries + [e]
  {
    assert !IsWhitespace("dispatch-prepared"[0]);
  }

  lemma {:induction false} ConfirmAuthorizes(codec: Codec, s: Sys, tid: nat, c: Choice, p: Plan)
    returns (s1: Sys, s2: Sys, capability: A.Capability)
    requires Doing(s, tid, HoldingPlan(p, ConfirmAuthorize)) && c.ok && Preparable(s.journal, p)
    ensures Moves(codec, s, tid, c, s1) && Moves(codec, s1, tid, c, s2)
    ensures Doing(s2, tid, HoldingCapability(true, capability, ConfirmStash(p))) && capability.action == p.action.id
    ensures var e := Authorization(s.journal, p);
            s2.journal.entries == s.journal.entries + [e, Preparation(s1.journal, p, e.sequence)]
    ensures s2.queue == s.queue && s2.prepared == s.prepared && s2.executing == s.executing
    ensures s2.records == s.records && s2.pending == s.pending && s2.sent == s.sent
  {
    hide StepReconcile, StepRelease, StepArm, StepPlanStart, StepPlan, StepConfirm, A.Record, A.RecordPrepared;
    hide Preparable, J.AdmittedEnvelope, J.RecoveryOf, J.LatestAuthorization;
    var e := Authorization(s.journal, p);
    AuthorizationIsTaken(s.journal, p);
    s1 := Goes(codec, s, tid, c, HoldingPlan(p, ConfirmAuthorize));
    assert Doing(s1, tid, HoldingPlan(p, ConfirmPrepare(e.sequence)));
    PreparationIsTaken(s1.journal, p, e, s1.minted);
    s2 := Goes(codec, s1, tid, c, HoldingPlan(p, ConfirmPrepare(e.sequence)));
    var receipt := Preparation(s1.journal, p, e.sequence).transition.preparation;
    capability := A.RecordPrepared(s1.journal, p.action.id, receipt, true, s1.minted).1.value;
  }

  lemma {:induction false} ConfirmEnds(codec: Codec, s: Sys, tid: nat, c: Choice, p: Plan, capability: A.Capability)
    returns (s1: Sys, s2: Sys, s3: Sys)
    requires Doing(s, tid, HoldingCapability(true, capability, ConfirmStash(p))) && c.ok
    requires capability.action == p.action.id && p.action.id !in s.executing.m && p.action.id !in s.pending.m
    ensures Moves(codec, s, tid, c, s1) && Moves(codec, s1, tid, c, s2) && Moves(codec, s2, tid, c, s3)
    ensures tid !in s3.tasks.m && Armed(s3, p)
    ensures var a := p.action.id;
            && s3.prepared == s.prepared.With(a, PreparedDispatch(p.action.session, capability))
            && s3.records
               == s.records.With(a, Record(p.action.session, p.authority, p.envelope.expected, PendingExecutor))
            && s3.queue == s.queue + [p.action] && s3.pending == s.pending && s3.executing == s.executing
            && s3.journal == s.journal
  {
    hide StepReconcile, StepRelease, StepArm, StepPlanStart, StepPlan, StepConfirmPlan;
    s1 := Goes(codec, s, tid, c, HoldingCapability(true, capability, ConfirmStash(p)));
    s2 := Goes(codec, s1, tid, c, Bare(true, ConfirmRecord(p)));
    s3 := Goes(codec, s2, tid, c, Bare(true, ConfirmEnqueue(p)));
  }

  lemma {:induction false} PendingIsEarly(s: Sys, a: Uuid)
    requires Inv(s) && a in s.pending.m
    ensures J.Rank(J.RecoveryOf(s.journal.entries, a)) <= 2 && a !in s.executing.m
  {
    OfAction(s, a);
  }

  lemma PendingIsAdmitted(codec: Codec, s: Sys, a: Uuid)
    requires Facts(codec, s) && a in s.pending.m
    ensures s.pending.m[a].action.id == a
    ensures J.AdmittedEnvelope(s.journal.entries, a) == Some(s.pending.m[a].envelope)
  {
  }

  /** In every state a run can reach, a pending plan is of its action, and the journal lets it be prepared. */
  lemma PendingIsPreparable(codec: Codec, s: Sys, a: Uuid)
    requires Sound(codec, s) && a in s.pending.m
    ensures s.pending.m[a].action.id == a && Preparable(s.journal, s.pending.m[a])
    ensures a !in s.executing.m
  {
    hide A.Valid, Inv, Facts;
    PendingIsEarly(s, a);
    PendingIsAdmitted(codec, s, a);
    AdmittedIsKnown(s.journal.entries, a);
  }

  lemma {:induction false} AdmittedIsKnown(es: seq<J.Entry>, a: Uuid)
    requires J.AdmittedEnvelope(es, a).Some?
    ensures J.RecoveryOf(es, a).Some?
  {
    if es[0].action == a {
      KnownStays(es, 0, a);
    } else {
      AdmittedIsKnown(es[1..], a);
      KnownBehind(es, a);
    }
  }

  lemma {:induction false} KnownStays(es: seq<J.Entry>, i: nat, a: Uuid)
    requires i < |es| && es[i].action == a
    ensures J.RecoveryOf(es, a).Some?
  {
    if i < |es| - 1 { KnownStays(es[..|es| - 1], i, a); }
  }

  lemma {:induction false} KnownBehind(es: seq<J.Entry>, a: Uuid)
    requires es != [] && J.RecoveryOf(es[1..], a).Some?
    ensures J.RecoveryOf(es, a).Some?
  {
    var n := |es| - 1;
    if es[n].action != a {
      assert es[1..][..n - 1] == es[..n][1..] && es[1..][n - 1] == es[n];
      KnownBehind(es[..n], a);
    }
  }

  /** What a good confirmation leads to: the action armed, its record begun, and two entries written for it. */
  ghost predicate Confirmed(s: Sys, s': Sys, c: Choice, p: Plan, q: Plan) {
    var a := p.action.id;
    && Armed(s', q) && s'.pending == s.pending.Without({a}) && s'.executing == s.executing
    && s'.queue == s.queue + [q.action]
    && s'.records == s.records.Without(c.expired)
                     .With(a, Record(p.action.session, p.authority, p.envelope.expected, PendingExecutor))
    && (exists e :: s'.journal.entries == s.journal.entries + [Authorization(s.journal, p), e]
                    && e.action == a && e.transition.DispatchPrepared?)
    && (exists capability :: s'.prepared == s.prepared.With(a, PreparedDispatch(p.action.session, capability)))
  }

  lemma {:induction false} PreparableConfirms(codec: Codec, s: Sys, tid: nat, c: Choice, a: Uuid, p: Plan, q: Plan)
    returns (path: seq<Sys>)
    requires ReadyToConfirm(s, tid, c, a, p) && p.action.id == a && Materialized(codec, s, p) == Some(q)
    requires Preparable(s.journal, p) && a !in s.executing.m
    ensures Alone(codec, tid, c, path) && |path| == 11 && path[0] == s
    ensures tid !in path[10].tasks.m && Confirmed(s, path[10], c, p, q)
  {
    hide Continue, Armed, Moves, SurfaceIs, Materialize, A.RecordPrepared, A.Record;
    var s1, s2 := ConfirmTakes(codec, s, tid, c, a, p);
    var s3, s4 := ConfirmMakesRoom(codec, s2, tid, c, p);
    var s5 := ConfirmFillsIn(codec, s4, tid, c, p, q);
    var s6, s7, capability := ConfirmAuthorizes(codec, s5, tid, c, q);
    var s8, s9, s10 := ConfirmEnds(codec, s7, tid, c, q, capability);
    path := [s, s1, s2, s3, s4, s5, s6, s7, s8, s9, s10];
    var e := Preparation(s6.journal, q, Authorization(s5.journal, q).sequence);
    assert s10.journal.entries == s.journal.entries + [Authorization(s.journal, p), e];
  }

  /**
   * In every state a run can reach: left alone for ten steps on the planned
   * surface, with room for the record, a payload that can be filled in and
   * appends that last, a good confirmation ends with the action armed.
   */
  lemma ConfirmationArms(codec: Codec, s: Sys, tid: nat, c: Choice, a: Uuid, p: Plan, q: Plan)
    returns (path: seq<Sys>)
    requires Sound(codec, s) && ReadyToConfirm(s, tid, c, a, p) && Materialized(codec, s, p) == Some(q)
    ensures Alone(codec, tid, c, path) && |path| == 11 && path[0] == s
    ensures tid !in path[10].tasks.m && Confirmed(s, path[10], c, p, q)
  {
    hide Continue, Confirmed, Preparable;
    PendingIsPreparable(codec, s, a);
    path := PreparableConfirms(codec, s, tid, c, a, p, q);
  }

  // ----------------------------------------------------------------------- plan

  /** A request that can be planned: room for it, an action that can be split, a surface that stays. */
  predicate ReadyToPlan(codec: Codec, s: Sys, tid: nat, c: Choice, r: PlanRequest, authority: Authority) {
    && Doing(s, tid, Bare(true, PlanPrunePending(r))) && c.ok
    && |s.pending.m - s.pending.m.Keys * c.expired| < MAX_PENDING
    && c.surface == Some(authority) && c.surfaceAfter == Some(authority)
    && c.lineage == Some((authority.provider, authority.target))
    && ValidRefs(r.expected) && Prepare(codec, r.kind, s.minted + 1).Some?
    && (Prepare(codec, r.kind, s.minted + 1).value.1.Some? ==> s.key.Some?)
  }

  /** The plan of a request, under the next free ids. */
  function PlanOf(codec: Codec, s: Sys, c: Choice, r: PlanRequest, authority: Authority): Plan
    requires Prepare(codec, r.kind, s.minted + 1).Some?
  {
    var (carrier, payload) := Prepare(codec, r.kind, s.minted + 1).value;
    var envelope := J.Envelope(s.minted, r.session, s.minted + 2, J.PreconditionCut(c.receiptId),
                               authority.provider, authority.target, r.expected);
    Plan(s.minted + 3, QueuedAction(s.minted, r.session, carrier), payload, authority, envelope)
  }

  lemma {:induction false} PlanMakesRoom(codec: Codec, s: Sys, tid: nat, c: Choice, r: PlanRequest)
    returns (s1: Sys, s2: Sys, s3: Sys)
    requires Doing(s, tid, Bare(true, PlanPrunePending(r)))
    requires |s.pending.m - s.pending.m.Keys * c.expired| < MAX_PENDING
    ensures Moves(codec, s, tid, c, s1) && Moves(codec, s1, tid, c, s2) && Moves(codec, s2, tid, c, s3)
    ensures Doing(s3, tid, Bare(true, PlanBind(r))) && Untouched(s, s3)
    ensures s3.pending == s.pending.Without(s.pending.m.Keys * c.expired)
  {
    hide StepReconcile, StepRelease, StepArm, StepConfirm;
    s1 := Goes(codec, s, tid, c, Bare(true, PlanPrunePending(r)));
    s2 := Goes(codec, s1, tid, c, Bare(true, PlanPruneRecords(r)));
    s3 := Goes(codec, s2, tid, c, Bare(true, PlanCapacity(r)));
  }

  lemma {:induction false} PlanBinds(codec: Codec, s: Sys, tid: nat, c: Choice, r: PlanRequest, authority: Authority)
    returns (s1: Sys)
    requires Doing(s, tid, Bare(true, PlanBind(r))) && c.ok && ValidRefs(r.expected)
    requires c.surface == Some(authority) && c.surfaceAfter == Some(authority)
    requires c.lineage == Some((authority.provider, authority.target)) && Prepare(codec, r.kind, s.minted + 1).Some?
    ensures Moves(codec, s, tid, c, s1)
    ensures Doing(s1, tid, HoldingPlan(PlanOf(codec, s, c, r, authority), PlanIntent))
    ensures s1.pending == s.pending && s1.journal == s.journal && s1.bindings == s.bindings && s1.key == s.key
  {
    hide StepReconcile, StepRelease, StepArm, StepConfirm, ValidRefs, Prepare;
    s1 := Goes(codec, s, tid, c, Bare(true, PlanBind(r)));
  }

  lemma {:induction false} IntentIsTaken(j: A.State, p: Plan)
    requires J.RecoveryOf(j.entries, p.action.id).None? && p.envelope.transportAction == p.action.id
    ensures var e := J.Entry(j.nextSequence, p.action.id, J.IntentAdmitted(p.envelope));
            var j' := A.Appended(j, p.action.id, e.transition);
            && A.Record(j, p.action.id, e.transition, true) == (j', true) && j'.entries == j.entries + [e]
            && J.RecoveryOf(j'.entries, p.action.id) == Some(J.Admitted)
  {
    J.RecoveryAppend(j.entries, J.Entry(j.nextSequence, p.action.id, J.IntentAdmitted(p.envelope)), p.action.id);
  }

  lemma {:induction false} PlanIsAdmitted(codec: Codec, s: Sys, tid: nat, c: Choice, p: Plan)
    returns (s1: Sys, s2: Sys)
    requires Doing(s, tid, HoldingPlan(p, PlanIntent)) && c.ok && OperationOf(p.action.kind).Some?
    requires J.RecoveryOf(s.journal.entries, p.action.id).None? && p.envelope.transportAction == p.action.id
    ensures Moves(codec, s, tid, c, s1) && Moves(codec, s1, tid, c, s2)
    ensures Doing(s2, tid, HoldingPlan(p, PlanPayload)) && StillAdmitted(s2, p.action.id)
    ensures s2.journal.entries
         == s.journal.entries + [J.Entry(s.journal.nextSequence, p.action.id, J.IntentAdmitted(p.envelope))]
    ensures s2.pending == s.pending && s2.bindings == s.bindings && s2.key == s.key
  {
    hide StepReconcile, StepRelease, StepArm, StepConfirm, StepConfirmPlan, StepPlanStart, A.Record, J.RecoveryOf;
    IntentIsTaken(s.journal, p);
    s1 := Goes(codec, s, tid, c, HoldingPlan(p, PlanIntent));
    s2 := Goes(codec, s1, tid, c, HoldingPlan(p, PlanOperation));
  }

  lemma {:induction false} PlanIsFiled(codec: Codec, s: Sys, tid: nat, c: Choice, p: Plan)
    returns (s1: Sys, s2: Sys)
    requires Doing(s, tid, HoldingPlan(p, PlanPayload)) && c.ok && StillAdmitted(s, p.action.id)
    requires OperationOf(p.action.kind).Some?
    requires p.payload.Some? ==>
               s.key.Some? && p.action.id !in s.bindings.m && CarriesPayload(OperationOf(p.action.kind).value)
    ensures Moves(codec, s, tid, c, s1) && Moves(codec, s1, tid, c, s2)
    ensures tid !in s2.tasks.m && s2.pending == s.pending.With(p.action.id, p) && s2.journal == s.journal
    ensures s2.bindings == BoundTo(s, p)
  {
    hide StepReconcile, StepRelease, StepArm, StepConfirm, StepConfirmPlan, StepPlanStart;
    s1 := Goes(codec, s, tid, c, HoldingPlan(p, PlanPayload));
    s2 := Goes(codec, s1, tid, c, HoldingPlan(p, PlanInsert));
  }

  /** The bindings with that of a payload-bearing plan. */
  function BoundTo(s: Sys, p: Plan): Table<Binding> {
    if p.payload.None? || s.key.None? || OperationOf(p.action.kind).None? then s.bindings
    else
      s.bindings.With(p.action.id,
                      Bind(s.key.value, p.action.id, OperationOf(p.action.kind).value, p.payload.value))
  }

  lemma FreshIsUnheard(s: Sys)
    requires Inv(s)
    ensures J.RecoveryOf(s.journal.entries, s.minted).None? && s.minted !in s.book.m
  {
    OfAction(s, s.minted);
  }

  lemma BoundIsBooked(codec: Codec, s: Sys)
    requires Facts(codec, s)
    ensures s.bindings.m.Keys <= s.book.m.Keys
  {
    forall a | a in s.bindings.m ensures a in s.book.m { assert BindingOk(s, a, s.bindings.m[a]); }
  }

  /** What was never planned has nothing in the journal and no binding. */
  lemma {:induction false} FreshIsUnknown(codec: Codec, s: Sys)
    requires Inv(s) && Facts(codec, s)
    ensures J.RecoveryOf(s.journal.entries, s.minted).None? && s.minted !in s.bindings.m
  {
    hide Inv, Facts;
    FreshIsUnheard(s);
    BoundIsBooked(codec, s);
  }

  lemma CarrierIsOperable(codec: Codec, k: Kind, minted: Uuid)
    requires Prepare(codec, k, minted).Some?
    ensures var (carrier, payload) := Prepare(codec, k, minted).value;
            && OperationOf(carrier) == OperationOf(k) && OperationOf(k).Some?
            && (payload.Some? ==> CarriesPayload(OperationOf(k).value))
  {
  }

  /** What a request leads to: its plan is pending, its intent admitted, and its payload bound. */
  predicate Pending(s: Sys, s': Sys, c: Choice, p: Plan) {
    && s'.pending == s.pending.Without(s.pending.m.Keys * c.expired).With(p.action.id, p)
    && s'.journal.entries
       == s.journal.entries + [J.Entry(s.journal.nextSequence, p.action.id, J.IntentAdmitted(p.envelope))]
    && s'.bindings == BoundTo(s, p)
  }

  lemma {:induction false} FreshPlanEnds(codec: Codec, s: Sys, tid: nat, c: Choice, r: PlanRequest,
                                         authority: Authority)
    returns (path: seq<Sys>)
    requires ReadyToPlan(codec, s, tid, c, r, authority)
    requires J.RecoveryOf(s.journal.entries, s.minted).None? && s.minted !in s.bindings.m
    ensures Alone(codec, tid, c, path) && |path| == 9 && path[0] == s
    ensures tid !in path[8].tasks.m && Pending(s, path[8], c, PlanOf(codec, s, c, r, authority))
  {
    hide Continue, Moves, Prepare, ValidRefs, J.RecoveryOf;
    var p := PlanOf(codec, s, c, r, authority);
    CarrierIsOperable(codec, r.kind, s.minted + 1);
    var s1, s2, s3 := PlanMakesRoom(codec, s, tid, c, r);
    var s4 := PlanBinds(codec, s3, tid, c, r, authority);
    var s5, s6 := PlanIsAdmitted(codec, s4, tid, c, p);
    var s7, s8 := PlanIsFiled(codec, s6, tid, c, p);
    path := [s, s1, s2, s3, s4, s5, s6, s7, s8];
  }

  /**
   * In every state a run can reach: left alone for eight steps, with room for
   * it and a surface that stays, a request that can be split ends as a pending
   * plan of exactly what was asked for, with its intent admitted and its
   * payload bound.
   */
  lemma RequestIsPlanned(codec: Codec, s: Sys, tid: nat, c: Choice, r: PlanRequest, authority: Authority)
    returns (path: seq<Sys>)
    requires Sound(codec, s) && ReadyToPlan(codec, s, tid, c, r, authority)
    ensures Alone(codec, tid, c, path) && |path| == 9 && path[0] == s
    ensures tid !in path[8].tasks.m && Pending(s, path[8], c, PlanOf(codec, s, c, r, authority))
  {
    hide Continue, Inv, Facts, ReadyToPlan;
    FreshIsUnknown(codec, s);
    path := FreshPlanEnds(codec, s, tid, c, r, authority);
  }
}
