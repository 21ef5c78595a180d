/**
 * What stays true once it is true: the payload an action was planned with,
 * the lineage of every receipt, and what a status says of the journal.
 */
module ManagedFacts {
  import opened Common
  import opened ManagedPayload
  import opened Managed
  import J = Journal
  import A = JournalApi

  // -------------------------------------------------------- the facts themselves

  ghost predicate IsCommitted(j: A.State, a: Uuid) { J.RecoveryOf(j.entries, a) == Some(J.CommittedState) }

  predicate BookingOk(b: Booking) {
    b.payload.Some? ==> b.operation.Some? && CarriesPayload(b.operation.value)
  }

  /** A queued action of a planned id is of the session and kind it was planned with. */
  predicate ItemOk(s: Sys, x: QueuedAction) {
    && x.id < s.minted
    && (x.id in s.book.m ==>
          && x.session == s.book.m[x.id].session
          && OperationOf(x.kind) == s.book.m[x.id].operation && Approved(s, x.id))
  }

  /** The envelope of a plan names the surface and the contracts the plan was made for. */
  predicate EnvelopeFits(p: Plan) {
    && p.envelope.provider == p.authority.provider && p.envelope.target == p.authority.target
    && p.envelope.expected != [] && NoDuplicates(p.envelope.expected) && p.envelope.preconditionCut.PreconditionCut?
  }

  /** The lineage the observation side knows of a surface. */
  function LineageOf(authority: Authority): (string, string) { (authority.provider, authority.target) }

  /** When the action was planned, its surface was there before and after. */
  predicate PlannedThere(s: Sys, a: Uuid) {
    a in s.book.m &&
    var authority := s.book.m[a].authority;
    PlanSaw(a, Some(authority), Some(authority), Some(LineageOf(authority))) in s.seen
  }

  /** A handler has taken the plan of the action with its own confirmation, for its own session, and in time. */
  predicate Claimed(s: Sys, a: Uuid) {
    a in s.book.m && ConfirmTook(a, s.book.m[a].session, s.book.m[a].confirmation, false) in s.seen
  }

  /** And it has then found the surface the action was planned for. */
  predicate Approved(s: Sys, a: Uuid) {
    Claimed(s, a) &&
    var authority := s.book.m[a].authority;
    ConfirmSaw(a, Some(authority), Some(LineageOf(authority))) in s.seen
  }

  predicate PlanBooked(s: Sys, p: Plan) {
    && p.action.id in s.book.m && p.action.id < s.minted
    && p.action.session == s.book.m[p.action.id].session
    && OperationOf(p.action.kind) == s.book.m[p.action.id].operation
    && p.authority == s.book.m[p.action.id].authority && p.confirmation == s.book.m[p.action.id].confirmation
    && (p.payload.Some? ==> s.book.m[p.action.id].payload == p.payload)
    && EnvelopeFits(p)
  }

  /** A plan whose intent the journal has admitted, with this envelope. */
  predicate PlanOk(s: Sys, p: Plan) {
    PlanBooked(s, p) && J.AdmittedEnvelope(s.journal.entries, p.action.id) == Some(p.envelope)
  }

  /** Such a plan, once its confirmation has been taken on its surface. */
  predicate ApprovedPlan(s: Sys, p: Plan) { PlanOk(s, p) && Approved(s, p.action.id) }

  predicate BindingOk(s: Sys, a: Uuid, b: Binding) {
    && a in s.book.m && s.book.m[a].payload.Some? && s.book.m[a].operation.Some?
    && b == Bind(b.digest.key, a, s.book.m[a].operation.value, s.book.m[a].payload.value)
  }

  /** A payload-bearing action has its binding and encodes to exactly the bytes it was planned with. */
  predicate CarriesBooked(codec: Codec, s: Sys, x: QueuedAction) {
    x.id in s.book.m && s.book.m[x.id].payload.Some? ==>
      x.id in s.bindings.m && codec.encode(x.kind) == Some(s.book.m[x.id].payload.value.bytes)
  }

  /** Some observation of `a` with this cut began and ended under the authority of its plan. */
  predicate Witnessed(s: Sys, a: Uuid, cut: J.CutRef) {
    a in s.book.m && Observed(a, s.book.m[a].authority, s.book.m[a].authority, cut) in s.log
  }

  /** The journal admitted the action for this surface and these contracts, each of them once. */
  predicate AdmittedFor(j: A.State, a: Uuid, authority: Authority, expected: seq<string>) {
    match J.AdmittedEnvelope(j.entries, a)
    case None => false
    case Some(e) =>
      && e.provider == authority.provider && e.target == authority.target && e.expected == expected
      && NoDuplicates(expected) && expected != [] && e.preconditionCut.PreconditionCut?
  }

  predicate RecordOf(s: Sys, a: Uuid, r: Record) {
    a in s.book.m && r.authority == s.book.m[a].authority && AdmittedFor(s.journal, a, r.authority, r.expected)
  }

  ghost predicate RecordOk(s: Sys, a: Uuid, r: Record) {
    RecordOf(s, a, r) && (r.status.VerifiedExpected? ==> IsCommitted(s.journal, a))
  }

  predicate EventOk(codec: Codec, s: Sys, e: Event) {
    e.Delivered? ==>
      && e.action.id < s.minted && (e.action.id in s.book.m ==> Approved(s, e.action.id))
      && (e.permitted ==> CarriesBooked(codec, s, e.action))
  }

  predicate EntryOk(s: Sys, e: J.Entry) {
    && (e.transition.PostconditionRecorded? ==> Witnessed(s, e.action, e.transition.receipt.draft.observationCut))
    && (e.transition.AuthorizationRecorded? || e.transition.DispatchPrepared? ==> Approved(s, e.action))
  }

  predicate BatchOk(s: Sys, b: Batch) {
    b.head in s.sent && (forall x | x in b.rest :: x in s.sent)
  }

  ghost predicate PcOk(codec: Codec, s: Sys, pc: Pc) {
    match pc
    case ConfirmRecord(p) => ApprovedPlan(s, p)
    case ConfirmEnqueue(p) => ApprovedPlan(s, p)
    case RollbackRecord(p) => ApprovedPlan(s, p)
    case RollbackTake(p) => ApprovedPlan(s, p)
    case RollbackEnd(p) => ApprovedPlan(s, p)
    case ArmSnapshot(_, taken) => forall x | x in taken :: x in s.sent
    case Arming(b) => BatchOk(s, b)
    case ArmTake(b) => BatchOk(s, b) && CarriesBooked(codec, s, b.head)
    case ArmRefuse(b) => BatchOk(s, b)
    case RejectTake(b) => BatchOk(s, b)
    case RejectRecord(b) => BatchOk(s, b)
    case ReconcileBefore(a, initial) => RecordOf(s, a, initial)
    case ReconcileBegin(a, initial, before) => RecordOf(s, a, initial) && before == initial.authority
    case ReconcileSnapshot(a, initial, before, observing) =>
      && RecordOf(s, a, initial) && before == initial.authority
      && observing.action == a && A.NoDispatchAuthority(s.journal, a)
    case ReconcileReceipt(a, initial, observed) =>
      observed.action == a && Witnessed(s, a, observed.cut) && A.NoDispatchAuthority(s.journal, a)
    case ReconcileFinish(a, status) => status.VerifiedExpected? ==> IsCommitted(s.journal, a)
    case _ => true
  }

  ghost predicate TaskOk(codec: Codec, s: Sys, t: Task) {
    match t
    case Bare(_, pc) => PcOk(codec, s, pc)
    case HoldingPlan(p, at) =>
      if at.PlanIntent? then PlanBooked(s, p)
      else if IsPlanning(at) then PlanOk(s, p)
      else if at.ConfirmCheck? then PlanOk(s, p) && Claimed(s, p.action.id)
      else ApprovedPlan(s, p)
    case HoldingCapability(_, _, onward) =>
      (match onward
       case ConfirmStash(p) => ApprovedPlan(s, p)
       case ArmBegin(b) => BatchOk(s, b) && CarriesBooked(codec, s, b.head)
       case CancelBegin(next) => PcOk(codec, s, next))
    case HoldingPermit(_, _, after) =>
      (match after
       case ArmDeliver(b) => BatchOk(s, b) && CarriesBooked(codec, s, b.head)
       case CancelFinish(next) => PcOk(codec, s, next))
    case _ => true
  }

  ghost predicate Facts(codec: Codec, s: Sys) {
    && (forall a | a in s.book.m :: a < s.minted && BookingOk(s.book.m[a]) && PlannedThere(s, a))
    && (forall x | x in s.sent :: ItemOk(s, x))
    && (forall x | x in s.queue :: x in s.sent)
    && (forall a | a in s.pending.m :: PlanOk(s, s.pending.m[a]) && s.pending.m[a].action.id == a)
    && (forall a | a in s.bindings.m :: BindingOk(s, a, s.bindings.m[a]))
    && (forall e | e in s.log :: EventOk(codec, s, e))
    && (forall a | a in s.records.m :: RecordOk(s, a, s.records.m[a]))
    && (forall e | e in s.journal.entries :: EntryOk(s, e))
    && (forall t | t in s.tasks.m :: TaskOk(codec, s, s.tasks.m[t]))
  }

  lemma {:induction false} TaskIsOk(codec: Codec, s: Sys, tid: nat)
    requires Facts(codec, s) && tid in s.tasks.m
    ensures TaskOk(codec, s, s.tasks.m[tid])
  {
  }

  lemma {:induction false} SentIsOk(codec: Codec, s: Sys)
    requires Facts(codec, s)
    ensures forall x | x in s.sent :: ItemOk(s, x)
    ensures forall x | x in s.queue :: x in s.sent
  {
  }

  lemma {:induction false} RecordIsOk(codec: Codec, s: Sys, a: Uuid)
    requires Facts(codec, s) && a in s.records.m
    ensures RecordOk(s, a, s.records.m[a])
  {
  }

  lemma {:induction false} EventIsOk(codec: Codec, s: Sys, e: Event)
    requires Facts(codec, s) && e in s.log
    ensures EventOk(codec, s, e)
  {
  }

  // ------------------------------------------------------------- they only grow

  ghost predicate JournalEvolves(j: A.State, j': A.State) {
    && (forall e | e in j.entries :: e in j'.entries)
    && (forall a: Uuid :: IsCommitted(j, a) ==> IsCommitted(j', a))
    && (forall a: Uuid :: A.NoDispatchAuthority(j, a) ==> A.NoDispatchAuthority(j', a))
    && (forall a: Uuid :: J.AdmittedEnvelope(j.entries, a).Some? ==>
          J.AdmittedEnvelope(j'.entries, a) == J.AdmittedEnvelope(j.entries, a))
  }

  ghost predicate Evolves(s: Sys, s': Sys) {
    && s.minted <= s'.minted
    && (forall a | a in s.book.m :: a in s'.book.m && s'.book.m[a] == s.book.m[a])
    && (forall a | a in s'.book.m :: a in s.book.m || a >= s.minted)
    && (forall a | a in s.bindings.m :: a in s'.bindings.m)
    && (forall x | x in s.sent :: x in s'.sent)
    && (forall x | x in s.seen :: x in s'.seen)
    && (forall e | e in s.log :: e in s'.log)
    && JournalEvolves(s.journal, s'.journal)
  }

  lemma {:induction false} PcCarries(codec: Codec, s: Sys, s': Sys, pc: Pc)
    requires PcOk(codec, s, pc) && Evolves(s, s')
    requires forall x | x in s.sent :: x.id < s.minted
    ensures PcOk(codec, s', pc)
  {
  }

  lemma {:induction false} TaskCarries(codec: Codec, s: Sys, s': Sys, t: Task)
    requires TaskOk(codec, s, t) && Evolves(s, s')
    requires forall x | x in s.sent :: x.id < s.minted
    ensures TaskOk(codec, s', t)
  {
    match t
    case Bare(_, pc) => PcCarries(codec, s, s', pc);
    case HoldingCapability(_, _, onward) =>
      if onward.CancelBegin? { PcCarries(codec, s, s', onward.next); }
    case HoldingPermit(_, _, after) =>
      if after.CancelFinish? { PcCarries(codec, s, s', after.next); }
    case _ =>
  }

  /** What a step newly put anywhere, which is all there is to check about it. */
  ghost predicate NewOk(codec: Codec, s: Sys, s': Sys) {
    && (forall a | a in s'.book.m && a !in s.book.m ::
         a < s'.minted && BookingOk(s'.book.m[a]) && PlannedThere(s', a))
    && (forall x | x in s'.sent && x !in s.sent :: ItemOk(s', x))
    && (forall x | x in s'.queue && x !in s.queue :: x in s'.sent)
    && (forall a | a in s'.pending.m && (a in s.pending.m ==> s'.pending.m[a] != s.pending.m[a]) ::
         PlanOk(s', s'.pending.m[a]) && s'.pending.m[a].action.id == a)
    && (forall a | a in s'.bindings.m && (a in s.bindings.m ==> s'.bindings.m[a] != s.bindings.m[a]) ::
          BindingOk(s', a, s'.bindings.m[a]))
    && (forall e | e in s'.log && e !in s.log :: EventOk(codec, s', e))
    && (forall a | a in s'.records.m && (a in s.records.m ==> s'.records.m[a] != s.records.m[a]) ::
          RecordOk(s', a, s'.records.m[a]))
    && (forall e | e in s'.journal.entries && e !in s.journal.entries :: EntryOk(s', e))
    && (forall t | t in s'.tasks.m && (t in s.tasks.m ==> s'.tasks.m[t] != s.tasks.m[t]) ::
         TaskOk(codec, s', s'.tasks.m[t]))
  }

  lemma {:induction false} PlansCarry(codec: Codec, s: Sys, s': Sys)
    requires Facts(codec, s) && Evolves(s, s') && NewOk(codec, s, s')
    ensures forall a | a in s'.pending.m :: PlanOk(s', s'.pending.m[a]) && s'.pending.m[a].action.id == a
    ensures forall a | a in s'.bindings.m :: BindingOk(s', a, s'.bindings.m[a])
    ensures forall a | a in s'.book.m :: a < s'.minted && BookingOk(s'.book.m[a]) && PlannedThere(s', a)
  {
    hide TaskOk, EventOk, EntryOk, RecordOk, ItemOk;
  }

  lemma {:induction false} SentCarries(codec: Codec, s: Sys, s': Sys)
    requires Facts(codec, s) && Evolves(s, s') && NewOk(codec, s, s')
    ensures forall x | x in s'.sent :: ItemOk(s', x)
    ensures forall x | x in s'.queue :: x in s'.sent
    ensures forall e | e in s'.log :: EventOk(codec, s', e)
  {
    hide TaskOk, PlanOk, BindingOk, EntryOk, RecordOk;
    forall e | e in s'.log && e in s.log ensures EventOk(codec, s', e) {
      assert EventOk(codec, s, e);
    }
  }

  lemma {:induction false} RecordsCarry(codec: Codec, s: Sys, s': Sys)
    requires Facts(codec, s) && Evolves(s, s') && NewOk(codec, s, s')
    ensures forall a | a in s'.records.m :: RecordOk(s', a, s'.records.m[a])
    ensures forall e | e in s'.journal.entries :: EntryOk(s', e)
  {
    hide TaskOk, PlanOk, BindingOk, EventOk, ItemOk;
  }

  lemma {:induction false} TasksCarry(codec: Codec, s: Sys, s': Sys)
    requires Facts(codec, s) && Evolves(s, s') && NewOk(codec, s, s')
    ensures forall t | t in s'.tasks.m :: TaskOk(codec, s', s'.tasks.m[t])
  {
    hide TaskOk, PlanOk, BindingOk, EventOk, EntryOk, RecordOk;
    forall t | t in s'.tasks.m ensures TaskOk(codec, s', s'.tasks.m[t]) {
      if t in s.tasks.m && s'.tasks.m[t] == s.tasks.m[t] {
        TaskCarries(codec, s, s', s.tasks.m[t]);
      }
    }
  }

  lemma {:induction false} FactsCarry(codec: Codec, s: Sys, s': Sys)
    requires Facts(codec, s) && Evolves(s, s') && NewOk(codec, s, s')
    ensures Facts(codec, s')
  {
    hide Evolves, NewOk, TaskOk, PlanOk, BindingOk, EventOk, EntryOk, RecordOk, ItemOk, BookingOk;
    PlansCarry(codec, s, s');
    SentCarries(codec, s, s');
    RecordsCarry(codec, s, s');
    TasksCarry(codec, s, s');
  }
}
