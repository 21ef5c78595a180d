/**
 * The managed consequential action protocol as a step machine. Every handler
 * is a task that advances by one critical section at a time, so any two
 * handlers interleave freely; only plan, confirm and release share a gate.
 */
module Managed {
  import opened Common
  import opened ManagedPayload
  import Utf8
  import J = Journal
  import A = JournalApi

  const MAX_PENDING := 64
  const MAX_RECORDS := 128
  const TAKE_LIMIT := 16
  const PUBLIC_LIMIT := 64
  const MAX_POSTCONDITION_CONTRACTS := 8
  const MAX_POSTCONDITION_CONTRACT_REF_BYTES := 4 * 1024

  datatype Authority = Authority(provider: string, target: string, surface: Uuid)

  datatype QueuedAction = QueuedAction(id: Uuid, session: Uuid, kind: Kind)

  datatype Plan = Plan(
    confirmation: Uuid, action: QueuedAction, payload: Option<Payload>, authority: Authority, envelope: J.Envelope)

  datatype PreparedDispatch = PreparedDispatch(session: Uuid, capability: A.Capability)

  datatype ExecutingDispatch = ExecutingDispatch(session: Uuid, permit: A.Permit)

  datatype Status =
    | PendingExecutor | PendingReconciliation | DispatchAuthorityFailed | PayloadAuthorityFailed
    | ReconciliationRequired | VerifiedExpected | VerifiedUnexpected

  datatype Record = Record(session: Uuid, authority: Authority, expected: seq<string>, status: Status)

  datatype ContractStatus = VerifiedPass | VerifiedFail | Unknown

  /** Where a handler is while it holds no dispatch authority, with its local copies. */
  datatype Pc =
    // plan
    | PlanPrunePending(request: PlanRequest)
    | PlanPruneRecords(request: PlanRequest)
    | PlanCapacity(request: PlanRequest)
    | PlanBind(request: PlanRequest)
    // confirm
    | ConfirmConsume(session: Uuid, id: Uuid, confirmation: Uuid)
    | ConfirmRecord(plan: Plan)
    | ConfirmEnqueue(plan: Plan)
    | RollbackRecord(plan: Plan)
    | RollbackTake(plan: Plan)
    | RollbackEnd(plan: Plan)
    // release
    | ReleasePending(session: Uuid)
    | ReleasePrepared(session: Uuid)
    | ReleaseQueue(session: Uuid)
    // arm
    | ArmSnapshot(session: Uuid, taken: seq<QueuedAction>)
    | Arming(batch: Batch)
    | ArmTake(batch: Batch)
    | ArmRefuse(batch: Batch)
    | RejectTake(batch: Batch)
    | RejectRecord(batch: Batch)
    // completion
    | CompleteTake(session: Uuid, id: Uuid, succeeded: bool)
    // reconciliation
    | ReconcileBefore(id: Uuid, initial: Record)
    | ReconcileBegin(id: Uuid, initial: Record, before: Authority)
    | ReconcileSnapshot(id: Uuid, initial: Record, before: Authority, observing: A.ObservationPermit)
    | ReconcileReceipt(id: Uuid, initial: Record, observed: A.ObservationReceipt)
    | ReconcileCommit(id: Uuid, verdict: J.Verdict)
    | ReconcileFinish(id: Uuid, status: Status)

  /** The batch an executor took: what was tracked when it was taken, what is still to be armed. */
  datatype Batch = Batch(session: Uuid, tracked: set<Uuid>, head: QueuedAction, rest: seq<QueuedAction>)

  /** Steps of plan and confirm that hold the plan itself. */
  datatype PlanPc =
    | PlanIntent | PlanOperation | PlanPayload | PlanInsert
    | ConfirmCheck | ConfirmPrune | ConfirmCapacity | ConfirmMaterialize | ConfirmAuthorize
    | ConfirmPrepare(authorizationSequence: nat)

  datatype CapabilityPc = ConfirmStash(plan: Plan) | ArmBegin(batch: Batch) | CancelBegin(next: Pc)

  datatype PermitPc = ArmDeliver(batch: Batch) | CancelFinish(next: Pc)

  datatype Cancelling = TakeExecuting | Idle | Beginning(capability: A.Capability) | Refusing(permit: A.Permit)

  /** A running handler, by the move-only authority it holds. */
  datatype Task =
    | Bare(gated: bool, pc: Pc)
    | HoldingPlan(plan: Plan, at: PlanPc)
    | HoldingCapability(gated: bool, capability: A.Capability, onward: CapabilityPc)
    | HoldingPermit(gated: bool, permit: A.Permit, after: PermitPc)
    | Completing(permit: A.Permit, succeeded: bool)
    | Draining(session: Uuid, capabilities: map<Uuid, A.Capability>, permits: map<Uuid, A.Permit>, current: Cancelling)

  datatype PlanRequest = PlanRequest(session: Uuid, kind: Kind, expected: seq<string>)

  /** What happened that the executor or an observer could see. */
  datatype Event =
    | Delivered(action: QueuedAction, permitted: bool)
    | Observed(id: Uuid, before: Authority, after: Authority, cut: J.CutRef)

  /** Where the dispatch authority of a planned action is, and how far it has got. */
  datatype Stage = Planned | Capable | Permitted | Running

  datatype Place = AtPending | AtPrepared | AtExecuting | InTask(task: nat, stage: Stage) | Spent

  /** What was bound when the action was planned; never changes. */
  datatype Booking = Booking(session: Uuid, authority: Authority, operation: Option<Operation>,
                             payload: Option<Payload>, confirmation: Uuid)

  /** What a handler saw of the surface, and which confirmation it took. */
  datatype Sight =
    | PlanSaw(id: Uuid, before: Option<Authority>, after: Option<Authority>, lineage: Option<(string, string)>)
    | ConfirmTook(id: Uuid, session: Uuid, confirmation: Uuid, expired: bool)
    | ConfirmSaw(id: Uuid, surface: Option<Authority>, lineage: Option<(string, string)>)

  /** A mutex-guarded table keyed by action or task. */
  datatype Table<+V> = Table(m: map<Uuid, V>) {
    function With(a: Uuid, v: V): Table<V> { Table(m[a := v]) }
    function Without(gone: set<Uuid>): Table<V> { Table(m - gone) }
  }

  /**
   * The tables of the control handle, the live queue, the journal, the running
   * handlers, and six history variables (`book`, `place`, `sent`, `log`, `lapsed`, `seen`)
   * that no handler reads.
   */
  datatype Sys = Sys(
    journal: A.State,
    key: Option<Uuid>,
    bindings: Table<Binding>,
    pending: Table<Plan>,
    prepared: Table<PreparedDispatch>,
    executing: Table<ExecutingDispatch>,
    records: Table<Record>,
    queue: seq<QueuedAction>,
    gate: Option<nat>,
    tasks: Table<Task>,
    minted: Uuid,
    book: Table<Booking>,
    place: Table<Place>,
    sent: seq<QueuedAction>,
    log: seq<Event>,
    lapsed: set<Uuid>,
    seen: seq<Sight>)

  /** Everything the environment decides at a step: clocks, I/O outcomes, surface reports, evidence. */
  datatype Choice = Choice(
    ok: bool,
    expired: set<Uuid>,
    pick: Uuid,
    surface: Option<Authority>,
    lineage: Option<(string, string)>,
    surfaceAfter: Option<Authority>,
    lineageAfter: Option<(string, string)>,
    receiptId: string,
    verdicts: map<string, ContractStatus>)

  /**
   * What happens next. `DrainPublic` hands out what the session has queued
   * without arming any of it, and `DropQueued` is the queue losing an action:
   * pushed out by newer ones, cancelled, or discarded with its surface.
   * `Redeliver` is no step of the live queue, which hands
   * out once what it was given: the safety theorems hold even if it did.
   */
  datatype Label =
    | StartPlan(request: PlanRequest)
    | StartConfirm(session: Uuid, id: Uuid, confirmation: Uuid)
    | StartRelease(session: Uuid)
    | StartArm(session: Uuid)
    | StartComplete(session: Uuid, id: Uuid, succeeded: bool)
    | StartReconcile(session: Uuid, id: Uuid)
    | Advance(task: nat, choice: Choice)
    | ExpireRecord(id: Uuid)
    | EnqueuePublic(session: Uuid, kind: Kind)
    | DrainPublic(session: Uuid)
    | DropQueued(index: nat)
    | Redeliver(index: nat)
    | Restart(keyAvailable: bool)

  predicate NeedsGate(t: Task) {
    match t
    case Bare(gated, _) => gated
    case HoldingPlan(_, _) => true
    case HoldingCapability(gated, _, _) => gated
    case HoldingPermit(gated, _, _) => gated
    case Completing(_, _) => false
    case Draining(_, _, _, _) => true
  }

  /** The dispatch authority a task holds, by action. */
  function Holds(t: Task): map<Uuid, Stage> {
    match t
    case Bare(_, _) => map[]
    case HoldingPlan(p, _) => map[p.action.id := Planned]
    case HoldingCapability(_, c, _) => map[c.action := Capable]
    case HoldingPermit(_, p, _) => map[p.action := Permitted]
    case Completing(p, _) => map[p.action := Running]
    case Draining(_, cs, ps, current) =>
      var parked := map a | a in cs.Keys + ps.Keys :: if a in cs then Capable else Running;
      if current.Beginning? then parked[current.capability.action := Capable]
      else if current.Refusing? then parked[current.permit.action := Permitted]
      else parked
  }

  // ------------------------------------------------------------------ helpers

  /** A handler returns: its guards are dropped. */
  function Finish(s: Sys, tid: nat): Sys {
    s.(tasks := s.tasks.Without({tid}), gate := if s.gate == Some(tid) then None else s.gate)
  }

  function Become(s: Sys, tid: nat, t: Task): Sys {
    s.(tasks := s.tasks.With(tid, t))
  }

  function Move(s: Sys, a: Uuid, p: Place): Sys {
    s.(place := s.place.With(a, p))
  }

  function MoveAll(s: Sys, who: set<Uuid>, p: Place): Sys {
    s.(place := Table(map a | a in s.place.m :: if a in who then p else s.place.m[a]))
  }

  /** A planned action is given up before it was armed. */
  function Drop(s: Sys, tid: nat, a: Uuid): Sys {
    Finish(Move(s, a, Spent), tid)
  }

  function SetStatus(s: Sys, a: Uuid, status: Status): Sys {
    if a in s.records.m then s.(records := s.records.With(a, s.records.m[a].(status := status))) else s
  }

  function BindingFor(s: Sys, a: Uuid): Option<Binding> {
    if a in s.bindings.m then Some(s.bindings.m[a]) else None
  }

  predicate SurfaceIs(surface: Option<Authority>, lineage: Option<(string, string)>, expected: Authority) {
    surface == Some(expected) && lineage == Some((expected.provider, expected.target))
  }

  /** Take the next session actions off the queue, in order, at most `limit` of them. */
  function TakenOf(q: seq<QueuedAction>, session: Uuid, limit: nat): seq<QueuedAction> {
    if q == [] || limit == 0 then []
    else if q[0].session == session then [q[0]] + TakenOf(q[1..], session, limit - 1)
    else TakenOf(q[1..], session, limit)
  }

  function RemainderOf(q: seq<QueuedAction>, session: Uuid, limit: nat): seq<QueuedAction> {
    if q == [] || limit == 0 then q
    else if q[0].session == session then RemainderOf(q[1..], session, limit - 1)
    else [q[0]] + RemainderOf(q[1..], session, limit)
  }

  function WithoutSession(q: seq<QueuedAction>, session: Uuid): seq<QueuedAction> {
    if q == [] then []
    else (if q[0].session == session then [] else [q[0]]) + WithoutSession(q[1..], session)
  }

  /** Handed over as they are, without a permit. */
  function Unpermitted(q: seq<QueuedAction>): seq<Event> {
    seq(|q|, i requires 0 <= i < |q| => Delivered(q[i], false))
  }

  // --------------------------------------------------------------------- plan

  predicate IsControl(c: char) { c < ' ' || '\U{7F}' <= c <= '\U{9F}' }

  /** `valid_postcondition_refs`, apart from decoding each reference, which the environment answers for. */
  predicate ValidRefs(refs: seq<string>) {
    && 0 < |refs| <= MAX_POSTCONDITION_CONTRACTS && NoDuplicates(refs)
    && (forall r | r in refs ::
          && r != "" && |Utf8.Encode(r)| <= MAX_POSTCONDITION_CONTRACT_REF_BYTES
          && (forall ch | ch in r :: !IsControl(ch)))
  }

  function StepPlanStart(codec: Codec, s: Sys, tid: nat, pc: Pc, c: Choice): Sys {
    match pc
    case PlanPrunePending(r) =>
      var gone := s.pending.m.Keys * c.expired;
      Become(MoveAll(s.(pending := s.pending.Without(gone)), gone, Spent), tid, Bare(true, PlanPruneRecords(r)))
    case PlanPruneRecords(r) =>
      Become(s.(records := s.records.Without(c.expired)), tid, Bare(true, PlanCapacity(r)))
    case PlanCapacity(r) =>
      if |s.pending.m| >= MAX_PENDING then Finish(s, tid) else Become(s, tid, Bare(true, PlanBind(r)))
    case PlanBind(r) =>
      var prepared := Prepare(codec, r.kind, s.minted + 1);
      if !c.ok || prepared.None? || c.surface.None? || !SurfaceIs(c.surfaceAfter, c.lineage, c.surface.value)
         || !ValidRefs(r.expected)
      then Finish(s, tid)
      else
        var (carrier, payload) := prepared.value;
        var authority := c.surface.value;
        var a := s.minted;
        var envelope := J.Envelope(a, r.session, s.minted + 2, J.PreconditionCut(c.receiptId),
                                   authority.provider, authority.target, r.expected);
        var plan := Plan(s.minted + 3, QueuedAction(a, r.session, carrier), payload, authority, envelope);
        Become(s.(minted := s.minted + 4,
                  book := s.book.With(a, Booking(r.session, authority, OperationOf(carrier), payload, s.minted + 3)),
                  seen := s.seen + [PlanSaw(a, c.surface, c.surfaceAfter, c.lineage)],
                  place := s.place.With(a, InTask(tid, Planned))),
               tid, HoldingPlan(plan, PlanIntent))
    case _ => s
  }

  /** Operation and payload are bound to an intent nothing has followed yet. */
  predicate StillAdmitted(s: Sys, a: Uuid) { J.RecoveryOf(s.journal.entries, a) == Some(J.Admitted) }

  predicate IsPlanning(at: PlanPc) { at.PlanIntent? || at.PlanOperation? || at.PlanPayload? || at.PlanInsert? }

  function StepPlan(s: Sys, tid: nat, p: Plan, at: PlanPc, c: Choice): Sys {
    var a := p.action.id;
    match at
    case PlanIntent =>
      var (j, ok) := A.Record(s.journal, a, J.IntentAdmitted(p.envelope), c.ok);
      if ok then Become(s.(journal := j), tid, HoldingPlan(p, PlanOperation)) else Drop(s, tid, a)
    case PlanOperation =>
      if c.ok && OperationOf(p.action.kind).Some? && StillAdmitted(s, a)
      then Become(s, tid, HoldingPlan(p, PlanPayload)) else Drop(s, tid, a)
    case PlanPayload =>
      if p.payload.None? then Become(s, tid, HoldingPlan(p, PlanInsert))
      else if s.key.None? || !c.ok || a in s.bindings.m || OperationOf(p.action.kind).None?
              || !CarriesPayload(OperationOf(p.action.kind).value) || !StillAdmitted(s, a) then Drop(s, tid, a)
      else
        var binding := Bind(s.key.value, a, OperationOf(p.action.kind).value, p.payload.value);
        Become(s.(bindings := s.bindings.With(a, binding)), tid, HoldingPlan(p, PlanInsert))
    case PlanInsert =>
      Finish(Move(s.(pending := s.pending.With(a, p)), a, AtPending), tid)
    case _ => s
  }

  // ------------------------------------------------------------------ confirm

  function StepConfirmPlan(codec: Codec, s: Sys, tid: nat, p: Plan, at: PlanPc, c: Choice): Sys {
    var a := p.action.id;
    match at
    case ConfirmCheck =>
      var s' := s.(seen := s.seen + [ConfirmSaw(a, c.surface, c.lineage)]);
      if SurfaceIs(c.surface, c.lineage, p.authority) then Become(s', tid, HoldingPlan(p, ConfirmPrune))
      else Drop(s', tid, a)
    case ConfirmPrune =>
      Become(s.(records := s.records.Without(c.expired)), tid, HoldingPlan(p, ConfirmCapacity))
    case ConfirmCapacity =>
      if |s.records.m| >= MAX_RECORDS then Drop(s, tid, a) else Become(s, tid, HoldingPlan(p, ConfirmMaterialize))
    case ConfirmMaterialize =>
      if p.payload.None? then Become(s, tid, HoldingPlan(p, ConfirmAuthorize))
      else
        var k := Materialize(codec, s.key, BindingFor(s, a), p.payload.value);
        if k.None? then Drop(s, tid, a)
        else Become(s, tid, HoldingPlan(p.(action := p.action.(kind := k.value), payload := None), ConfirmAuthorize))
    case ConfirmAuthorize =>
      var sequence := s.journal.nextSequence;
      var (j, ok) := A.Record(s.journal, a, J.AuthorizationRecorded(p.envelope.authorizationRevision, true), c.ok);
      if ok then Become(s.(journal := j), tid, HoldingPlan(p, ConfirmPrepare(sequence))) else Drop(s, tid, a)
    case ConfirmPrepare(sequence) =>
      var receipt := J.PreparationReceipt("dispatch-prepared", sequence, p.envelope.preconditionCut,
                                          p.envelope.provider, p.envelope.target);
      var (j, capability) := A.RecordPrepared(s.journal, a, receipt, c.ok, s.minted);
      if capability.None? then Drop(s, tid, a)
      else Become(Move(s.(journal := j, minted := s.minted + 1), a, InTask(tid, Capable)),
                  tid, HoldingCapability(true, capability.value, ConfirmStash(p)))
    case _ => s
  }

  function StepConfirm(s: Sys, tid: nat, pc: Pc, c: Choice): Sys {
    match pc
    case ConfirmConsume(session, a, confirmation) =>
      if a !in s.pending.m || s.pending.m[a].action.session != session then Finish(s, tid)
      else if a in c.expired then Drop(s.(pending := s.pending.Without({a})), tid, a)
      else if s.pending.m[a].confirmation != confirmation then Finish(s, tid)
      else Become(Move(s.(pending := s.pending.Without({a}),
                          seen := s.seen + [ConfirmTook(a, session, confirmation, a in c.expired)]),
                       a, InTask(tid, Planned)),
                  tid, HoldingPlan(s.pending.m[a], ConfirmCheck))
    case ConfirmRecord(p) =>
      Become(s.(records := s.records.With(p.action.id,
                                          Record(p.action.session, p.authority, p.envelope.expected, PendingExecutor))),
             tid, Bare(true, ConfirmEnqueue(p)))
    case ConfirmEnqueue(p) =>
      if c.ok then Finish(s.(queue := s.queue + [p.action], sent := s.sent + [p.action]), tid)
      else Become(s, tid, Bare(true, RollbackRecord(p)))
    case RollbackRecord(p) =>
      Become(s.(records := s.records.Without({p.action.id})), tid, Bare(true, RollbackTake(p)))
    case RollbackTake(p) =>
      var a := p.action.id;
      if a !in s.prepared.m then Finish(s, tid)
      else Become(Move(s.(prepared := s.prepared.Without({a})), a, InTask(tid, Capable)),
                  tid, HoldingCapability(true, s.prepared.m[a].capability, CancelBegin(RollbackEnd(p))))
    case RollbackEnd(_) => Finish(s, tid)
    case _ => s
  }

  // ------------------------------------------------------------------ release

  function StepRelease(s: Sys, tid: nat, pc: Pc): Sys {
    match pc
    case ReleasePending(session) =>
      var gone := set a | a in s.pending.m && s.pending.m[a].action.session == session;
      Become(MoveAll(s.(pending := s.pending.Without(gone)), gone, Spent), tid, Bare(true, ReleasePrepared(session)))
    case ReleasePrepared(session) =>
      var taken := map a | a in s.prepared.m && s.prepared.m[a].session == session :: s.prepared.m[a].capability;
      Become(MoveAll(s.(prepared := s.prepared.Without(taken.Keys)), taken.Keys, InTask(tid, Capable)),
             tid, Draining(session, taken, map[], TakeExecuting))
    case ReleaseQueue(session) => Finish(s.(queue := WithoutSession(s.queue, session)), tid)
    case _ => s
  }

  /** Refuse every capability taken, then abandon every permit taken, then forget the records. */
  function StepDrain(s: Sys, tid: nat, t: Task, c: Choice): Sys
    requires t.Draining?
  {
    match t.current
    case TakeExecuting =>
      var taken := map a | a in s.executing.m && s.executing.m[a].session == t.session :: s.executing.m[a].permit;
      Become(MoveAll(s.(executing := s.executing.Without(taken.Keys)), taken.Keys, InTask(tid, Running)),
             tid, t.(permits := taken, current := Idle))
    case Beginning(capability) =>
      var (j, permit) := A.BeginDispatch(s.journal, capability, s.minted);
      var s' := s.(journal := j, minted := s.minted + 1);
      if permit.None? then Become(Move(s', capability.action, Spent), tid, t.(current := Idle))
      else Become(Move(s', capability.action, InTask(tid, Permitted)), tid, t.(current := Refusing(permit.value)))
    case Refusing(permit) =>
      var (j, _) := A.Linearize(s.journal, permit, J.NotDispatched, c.ok, s.minted);
      Become(Move(s.(journal := j, minted := s.minted + 1), permit.action, Spent), tid, t.(current := Idle))
    case Idle =>
      if c.pick in t.capabilities then
        Become(s, tid, t.(capabilities := t.capabilities - {c.pick}, current := Beginning(t.capabilities[c.pick])))
      else if t.capabilities == map[] && c.pick in t.permits then
        var (j, _) := A.AbandonDispatch(s.journal, t.permits[c.pick]);
        Become(Move(s.(journal := j), c.pick, Spent), tid, t.(permits := t.permits - {c.pick}))
      else if t.capabilities == map[] && t.permits == map[] then
        var gone := set a | a in s.records.m && s.records.m[a].session == t.session;
        s.(records := s.records.Without(gone),
           tasks := s.tasks.With(tid, Bare(false, ReleaseQueue(t.session))), gate := None)
      else s
  }

  // ------------------------------------------- holding a capability or a permit

  function StepCapability(s: Sys, tid: nat, gated: bool, capability: A.Capability, onward: CapabilityPc): Sys {
    var a := capability.action;
    match onward
    case ConfirmStash(p) =>
      Become(Move(s.(prepared := s.prepared.With(a, PreparedDispatch(p.action.session, capability))), a, AtPrepared),
             tid, Bare(true, ConfirmRecord(p)))
    case ArmBegin(batch) =>
      var (j, permit) := A.BeginDispatch(s.journal, capability, s.minted);
      var s' := s.(journal := j, minted := s.minted + 1);
      if permit.None? then Become(Move(s', a, Spent), tid, Bare(gated, ArmRefuse(batch)))
      else Become(Move(s', a, InTask(tid, Permitted)), tid, HoldingPermit(gated, permit.value, ArmDeliver(batch)))
    case CancelBegin(next) =>
      var (j, permit) := A.BeginDispatch(s.journal, capability, s.minted);
      var s' := s.(journal := j, minted := s.minted + 1);
      if permit.None? then Become(Move(s', a, Spent), tid, Bare(gated, next))
      else Become(Move(s', a, InTask(tid, Permitted)), tid, HoldingPermit(gated, permit.value, CancelFinish(next)))
  }

  function StepPermit(s: Sys, tid: nat, gated: bool, permit: A.Permit, after: PermitPc, c: Choice): Sys {
    var a := permit.action;
    match after
    case ArmDeliver(batch) =>
      Onward(Move(s.(executing := s.executing.With(a, ExecutingDispatch(batch.session, permit)),
                     log := s.log + [Delivered(batch.head, true)]), a, AtExecuting),
             tid, batch)
    case CancelFinish(next) =>
      var (j, _) := A.Linearize(s.journal, permit, J.NotDispatched, c.ok, s.minted);
      Become(Move(s.(journal := j, minted := s.minted + 1), a, Spent), tid, Bare(gated, next))
  }

  // ---------------------------------------------------------------------- arm

  /** Go on with the next action of the batch, or return it. */
  function Onward(s: Sys, tid: nat, b: Batch): Sys {
    if b.rest == [] then Finish(s, tid)
    else Become(s, tid, Bare(false, Arming(b.(head := b.rest[0], rest := b.rest[1..]))))
  }

  function StepArm(codec: Codec, s: Sys, tid: nat, pc: Pc): Sys {
    match pc
    case ArmSnapshot(session, batch) =>
      if batch == [] then Finish(s, tid)
      else
        var tracked := set x | x in batch && x.id in s.records.m && s.records.m[x.id].session == session :: x.id;
        Become(s, tid, Bare(false, Arming(Batch(session, tracked, batch[0], batch[1..]))))
    case Arming(b) =>
      if b.head.id !in b.tracked then Onward(s.(log := s.log + [Delivered(b.head, false)]), tid, b)
      else if VerifiedAtDispatch(codec, s.key, BindingFor(s, b.head.id), b.head.kind) then
        Become(s, tid, Bare(false, ArmTake(b)))
      else Become(s, tid, Bare(false, RejectTake(b)))
    case ArmTake(b) =>
      var a := b.head.id;
      if a !in s.prepared.m then Become(s, tid, Bare(false, ArmRefuse(b)))
      else if s.prepared.m[a].session != b.session then
        Become(Move(s.(prepared := s.prepared.Without({a})), a, Spent), tid, Bare(false, ArmRefuse(b)))
      else
        Become(Move(s.(prepared := s.prepared.Without({a})), a, InTask(tid, Capable)),
               tid, HoldingCapability(false, s.prepared.m[a].capability, ArmBegin(b)))
    case ArmRefuse(b) => Onward(SetStatus(s, b.head.id, DispatchAuthorityFailed), tid, b)
    case RejectTake(b) =>
      var a := b.head.id;
      if a !in s.prepared.m then Become(s, tid, Bare(false, RejectRecord(b)))
      else Become(Move(s.(prepared := s.prepared.Without({a})), a, InTask(tid, Capable)),
                  tid, HoldingCapability(false, s.prepared.m[a].capability, CancelBegin(RejectRecord(b))))
    case RejectRecord(b) => Onward(SetStatus(s, b.head.id, PayloadAuthorityFailed), tid, b)
    case _ => s
  }

  // --------------------------------------------------------------- completion

  function StepCompleteTake(s: Sys, tid: nat, session: Uuid, a: Uuid, succeeded: bool): Sys {
    if a !in s.executing.m then Finish(s, tid)
    else
      var e := s.executing.m[a];
      var s' := s.(executing := s.executing.Without({a}));
      if e.session != session then Finish(Move(s', a, Spent), tid)
      else Become(Move(s', a, InTask(tid, Running)), tid, Completing(e.permit, succeeded))
  }

  function StepCompleting(s: Sys, tid: nat, permit: A.Permit, succeeded: bool, c: Choice): Sys {
    var result := if succeeded then J.DispatchedFull else J.DispatchAmbiguous;
    var (j, _) := A.Linearize(s.journal, permit, result, c.ok, s.minted);
    Finish(Move(s.(journal := j, minted := s.minted + 1), permit.action, Spent), tid)
  }

  // ----------------------------------------------------------- reconciliation

  /** One piece of evidence per contract the record expects, as the registry evaluated it. */
  function Evidence(refs: seq<string>, verdicts: map<string, ContractStatus>): map<string, (ContractStatus, string)> {
    map r | r in refs :: (if r in verdicts then verdicts[r] else Unknown, "evidence:managed-webview")
  }

  function WithStatus(evidence: map<string, (ContractStatus, string)>, refs: seq<string>,
                      wanted: ContractStatus): seq<string> {
    if refs == [] then []
    else (if refs[0] in evidence && evidence[refs[0]].0 == wanted then [refs[0]] else [])
         + WithStatus(evidence, refs[1..], wanted)
  }

  function BindingsOf(evidence: map<string, (ContractStatus, string)>, refs: seq<string>): seq<J.EvidenceBinding> {
    if refs == [] then []
    else (if refs[0] in evidence then [J.EvidenceBinding(refs[0], evidence[refs[0]].1)] else [])
         + BindingsOf(evidence, refs[1..])
  }

  function RefsOf(bs: seq<J.EvidenceBinding>): seq<string> {
    seq(|bs|, i requires 0 <= i < |bs| => bs[i].receiptRef)
  }

  function Unresolved(evidence: map<string, (ContractStatus, string)>, refs: seq<string>): seq<string> {
    if refs == [] then []
    else (if refs[0] !in evidence || evidence[refs[0]].0 == Unknown then [refs[0]] else [])
         + Unresolved(evidence, refs[1..])
  }

  /** `reconcile_consequential_postconditions`: classify the admitted contracts by the evidence. */
  function Draft(o: A.ObservationReceipt, expected: seq<string>,
                 evidence: map<string, (ContractStatus, string)>): J.ReceiptDraft {
    var bindings := BindingsOf(evidence, expected);
    var failed := WithStatus(evidence, expected, VerifiedFail);
    var unresolved := Unresolved(evidence, expected);
    J.ReceiptDraft(o.action, o.session, o.provider, o.target, expected, o.cut, o.reconciliationRef,
                   RefsOf(bindings), bindings, WithStatus(evidence, expected, VerifiedPass), failed, unresolved,
                   J.PartitionVerdict(failed, unresolved), o.cause)
  }

  predicate LineageMatches(o: A.ObservationReceipt, e: J.Envelope) {
    o.provider == e.provider && o.target == e.target && o.session == e.session
  }

  function StatusOf(v: J.Verdict): Status {
    match v
    case VerifiedExpected => VerifiedExpected
    case VerifiedUnexpected => VerifiedUnexpected
    case ReconciliationRequired => ReconciliationRequired
  }

  function Unresolvable(s: Sys, tid: nat, a: Uuid): Sys {
    Finish(SetStatus(s, a, ReconciliationRequired), tid)
  }

  function StepReconcile(s: Sys, tid: nat, pc: Pc, c: Choice): Sys {
    match pc
    case ReconcileBefore(a, initial) =>
      if SurfaceIs(c.surface, c.lineage, initial.authority)
      then Become(s, tid, Bare(false, ReconcileBegin(a, initial, c.surface.value)))
      else Unresolvable(s, tid, a)
    case ReconcileBegin(a, initial, before) =>
      var (j, permit) := A.BeginObservation(s.journal, a, s.minted);
      if permit.None? then Unresolvable(s, tid, a)
      else Become(s.(journal := j, minted := s.minted + 1), tid,
                  Bare(false, ReconcileSnapshot(a, initial, before, permit.value)))
    case ReconcileSnapshot(a, initial, before, permit) =>
      if !c.ok || !SurfaceIs(c.surfaceAfter, c.lineageAfter, initial.authority) then
        Unresolvable(s.(journal := A.AbandonObservation(s.journal, permit).0), tid, a)
      else
        var snapshot := A.Snapshot(c.receiptId, initial.authority.provider, initial.authority.target, permit.grant.cut);
        var (j, receipt) := A.CompleteObservation(s.journal, permit, snapshot);
        if receipt.None? then Unresolvable(s.(journal := j), tid, a)
        else Become(s.(journal := j,
                       log := s.log + [Observed(a, before, c.surfaceAfter.value, permit.grant.cut)]),
                    tid, Bare(false, ReconcileReceipt(a, initial, receipt.value)))
    case ReconcileReceipt(a, initial, observed) =>
      var envelope := J.AdmittedEnvelope(s.journal.entries, a);
      if !c.ok || envelope.None? || !LineageMatches(observed, envelope.value)
         || !(ToSet(initial.expected) <= ToSet(envelope.value.expected)) then Unresolvable(s, tid, a)
      else
        var draft := Draft(observed, envelope.value.expected, Evidence(initial.expected, c.verdicts));
        var (j, ok) := A.RecordPostcondition(s.journal, draft, true);
        if !ok then Unresolvable(s, tid, a)
        else Become(s.(journal := j), tid, Bare(false, ReconcileCommit(a, draft.verdict)))
    case ReconcileCommit(a, verdict) =>
      if verdict != J.VerifiedExpected then Become(s, tid, Bare(false, ReconcileFinish(a, StatusOf(verdict))))
      else
        var (j, ok) := A.Record(s.journal, a, J.Committed, c.ok);
        Become(s.(journal := j), tid,
               Bare(false, ReconcileFinish(a, if ok then VerifiedExpected else ReconciliationRequired)))
    case ReconcileFinish(a, status) => Finish(SetStatus(s, a, status), tid)
    case _ => s
  }

  // ---------------------------------------------------------------- all steps

  function Spawn(s: Sys, gated: bool, pc: Pc): Sys {
    if gated && s.gate.Some? then s
    else s.(tasks := s.tasks.With(s.minted, Bare(gated, pc)), minted := s.minted + 1,
            gate := if gated then Some(s.minted) else s.gate)
  }

  function Step(codec: Codec, s: Sys, l: Label): Sys {
    match l
    case StartPlan(r) => Spawn(s, true, PlanPrunePending(r))
    case StartConfirm(session, a, confirmation) => Spawn(s, true, ConfirmConsume(session, a, confirmation))
    case StartRelease(session) => Spawn(s, true, ReleasePending(session))
    case StartArm(session) =>
      Spawn(s.(queue := RemainderOf(s.queue, session, TAKE_LIMIT)), false,
            ArmSnapshot(session, TakenOf(s.queue, session, TAKE_LIMIT)))
    case StartComplete(session, a, succeeded) =>
      if a in s.records.m && s.records.m[a].session == session
      then Spawn(s, false, CompleteTake(session, a, succeeded)) else s
    case StartReconcile(session, a) =>
      if a in s.records.m && s.records.m[a].session == session
      then Spawn(SetStatus(s, a, PendingReconciliation), false, ReconcileBefore(a, s.records.m[a])) else s
    case Advance(tid, c) => if tid in s.tasks.m then Continue(codec, s, tid, s.tasks.m[tid], c) else s
    case ExpireRecord(a) => s.(records := s.records.Without({a}), lapsed := s.lapsed + {a})
    case EnqueuePublic(session, kind) =>
      var x := QueuedAction(s.minted, session, kind);
      s.(queue := s.queue + [x], sent := s.sent + [x], minted := s.minted + 1)
    case DrainPublic(session) =>
      s.(queue := RemainderOf(s.queue, session, PUBLIC_LIMIT),
         log := s.log + Unpermitted(TakenOf(s.queue, session, PUBLIC_LIMIT)))
    case DropQueued(i) => if i < |s.queue| then s.(queue := s.queue[..i] + s.queue[i + 1..]) else s
    case Redeliver(i) => if i < |s.sent| then s.(queue := s.queue + [s.sent[i]]) else s
    case Restart(keyAvailable) =>
      Sys(A.Reopen(s.journal, s.minted), if keyAvailable then Some(s.minted + 1) else None, s.bindings,
          Table(map[]), Table(map[]), Table(map[]), Table(map[]), [], None, Table(map[]), s.minted + 2,
          s.book, MoveAll(s, s.place.m.Keys, Spent).place, s.sent, s.log, s.lapsed, s.seen)
  }

  function Continue(codec: Codec, s: Sys, tid: nat, t: Task, c: Choice): Sys {
    match t
    case Bare(_, pc) =>
      if IsPlanPc(pc) then StepPlanStart(codec, s, tid, pc, c)
      else if IsReleasePc(pc) then StepRelease(s, tid, pc)
      else if IsArmPc(pc) then StepArm(codec, s, tid, pc)
      else if pc.CompleteTake? then StepCompleteTake(s, tid, pc.session, pc.id, pc.succeeded)
      else if IsConfirmPc(pc) then StepConfirm(s, tid, pc, c)
      else StepReconcile(s, tid, pc, c)
    case HoldingPlan(p, at) =>
      if IsPlanning(at) then StepPlan(s, tid, p, at, c)
      else StepConfirmPlan(codec, s, tid, p, at, c)
    case HoldingCapability(gated, capability, onward) => StepCapability(s, tid, gated, capability, onward)
    case HoldingPermit(gated, permit, after) => StepPermit(s, tid, gated, permit, after, c)
    case Completing(permit, succeeded) => StepCompleting(s, tid, permit, succeeded, c)
    case Draining(_, _, _, _) => StepDrain(s, tid, t, c)
  }

  predicate IsPlanPc(pc: Pc) { pc.PlanPrunePending? || pc.PlanPruneRecords? || pc.PlanCapacity? || pc.PlanBind? }

  predicate IsConfirmPc(pc: Pc) {
    || pc.ConfirmConsume? || pc.ConfirmRecord? || pc.ConfirmEnqueue?
    || pc.RollbackRecord? || pc.RollbackTake? || pc.RollbackEnd?
  }

  predicate IsReleasePc(pc: Pc) { pc.ReleasePending? || pc.ReleasePrepared? || pc.ReleaseQueue? }

  predicate IsArmPc(pc: Pc) {
    pc.ArmSnapshot? || pc.Arming? || pc.ArmTake? || pc.ArmRefuse? || pc.RejectTake? || pc.RejectRecord?
  }

  /** A fresh process over an empty journal. */
  function Init(keyAvailable: bool): Sys {
    Sys(A.State(0, 1, [], map[], map[], map[]), if keyAvailable then Some(1) else None, Table(map[]),
        Table(map[]), Table(map[]), Table(map[]), Table(map[]), [], None, Table(map[]), 2,
        Table(map[]), Table(map[]), [], [], {}, [])
  }

  function Run(codec: Codec, s: Sys, labels: seq<Label>): Sys {
    if labels == [] then s
    else Step(codec, Run(codec, s, labels[..|labels| - 1]), labels[|labels| - 1])
  }
}
