/**
 * What the handlers achieve when nothing gets in their way: an armed action
 * reaches the executor, its completion reaches the journal, and its
 * reconciliation ends in the status the evidence calls for.
 */
module ManagedProgress {
  import opened Common
  import opened ManagedPayload
  import opened Managed
  import opened ManagedAuthority
  import opened ManagedFacts
  import opened ManagedTheorems
  import Drafts = ManagedDraft
  import J = Journal
  import A = JournalApi

  /** One step of the handler. */
  ghost predicate Moves(codec: Codec, s: Sys, tid: nat, c: Choice, s': Sys) {
    Step(codec, s, Advance(tid, c)) == s'
  }

  /** The states one handler goes through by itself, with the same answers from the environment throughout. */
  ghost predicate Alone(codec: Codec, tid: nat, c: Choice, path: seq<Sys>) {
    path != [] && forall i | 0 <= i < |path| - 1 :: Moves(codec, path[i], tid, c, path[i + 1])
  }

  /** The handler is at this point. */
  predicate Doing(s: Sys, tid: nat, t: Task) { tid in s.tasks.m && s.tasks.m[tid] == t }

  lemma Goes(codec: Codec, s: Sys, tid: nat, c: Choice, t: Task) returns (s': Sys)
    requires Doing(s, tid, t)
    ensures s' == Continue(codec, s, tid, t, c) && Moves(codec, s, tid, c, s')
  {
    s' := Step(codec, s, Advance(tid, c));
  }

  // ------------------------------------------------------------------- dispatch

  /** The executor's batch has come to a tracked action that passes the payload check and is still prepared. */
  predicate ReadyToArm(codec: Codec, s: Sys, tid: nat, b: Batch) {
    && Doing(s, tid, Bare(false, Arming(b))) && b.head.id in b.tracked
    && VerifiedAtDispatch(codec, s.key, BindingFor(s, b.head.id), b.head.kind)
    && b.head.id in s.prepared.m && s.prepared.m[b.head.id].session == b.session
  }

  lemma {:induction false} ArmChecks(codec: Codec, s: Sys, tid: nat, c: Choice, b: Batch) returns (s': Sys)
    requires ReadyToArm(codec, s, tid, b)
    ensures Moves(codec, s, tid, c, s') && s' == Become(s, tid, Bare(false, ArmTake(b)))
  {
    s' := Goes(codec, s, tid, c, Bare(false, Arming(b)));
  }

  lemma {:induction false} ArmTakes(codec: Codec, s: Sys, tid: nat, c: Choice, b: Batch) returns (s': Sys)
    requires Doing(s, tid, Bare(false, ArmTake(b))) && b.head.id in s.prepared.m
    requires s.prepared.m[b.head.id].session == b.session
    ensures Moves(codec, s, tid, c, s')
    ensures Doing(s', tid, HoldingCapability(false, s.prepared.m[b.head.id].capability, ArmBegin(b)))
    ensures s'.journal == s.journal && s'.log == s.log && s'.prepared == s.prepared.Without({b.head.id})
  {
    s' := Goes(codec, s, tid, c, Bare(false, ArmTake(b)));
  }

  lemma {:induction false} ArmBegins(codec: Codec, s: Sys, tid: nat, c: Choice, b: Batch, capability: A.Capability)
    returns (s': Sys, permit: A.Permit)
    requires Doing(s, tid, HoldingCapability(false, capability, ArmBegin(b)))
    requires A.BeginDispatch(s.journal, capability, s.minted).1.Some?
    ensures Moves(codec, s, tid, c, s')
    ensures Doing(s', tid, HoldingPermit(false, permit, ArmDeliver(b))) && permit.action == capability.action
    ensures s'.journal.entries == s.journal.entries && s'.log == s.log && s'.prepared == s.prepared
  {
    s' := Goes(codec, s, tid, c, HoldingCapability(false, capability, ArmBegin(b)));
    permit := A.BeginDispatch(s.journal, capability, s.minted).1.value;
  }

  lemma {:induction false} ArmDelivers(codec: Codec, s: Sys, tid: nat, c: Choice, b: Batch, permit: A.Permit)
    returns (s': Sys)
    requires Doing(s, tid, HoldingPermit(false, permit, ArmDeliver(b)))
    ensures Moves(codec, s, tid, c, s')
    ensures s'.log == s.log + [Delivered(b.head, true)] && s'.journal == s.journal && s'.prepared == s.prepared
    ensures permit.action in s'.executing.m && s'.executing.m[permit.action] == ExecutingDispatch(b.session, permit)
  {
    s' := Goes(codec, s, tid, c, HoldingPermit(false, permit, ArmDeliver(b)));
  }

  /** What the dispatch authority depends on; true of every state a run can reach. */
  ghost predicate Governed(s: Sys) { Inv(s) && A.Valid(s.journal) }

  lemma CapabilityIsGood(s: Sys, a: Uuid)
    requires Governed(s) && a in s.prepared.m
    ensures s.prepared.m[a].capability.action == a
    ensures forall minted :: A.BeginDispatch(s.journal, s.prepared.m[a].capability, minted).1.Some?
  {
    OfAction(s, a);
  }

  lemma {:induction false} GoodCapabilityDelivers(codec: Codec, s: Sys, tid: nat, c: Choice, b: Batch)
    returns (path: seq<Sys>)
    requires ReadyToArm(codec, s, tid, b) && s.prepared.m[b.head.id].capability.action == b.head.id
    requires forall minted :: A.BeginDispatch(s.journal, s.prepared.m[b.head.id].capability, minted).1.Some?
    ensures Alone(codec, tid, c, path) && |path| == 5 && path[0] == s
    ensures Handed(s, path[4], b)
  {
    hide Continue;
    var s1 := ArmChecks(codec, s, tid, c, b);
    var s2 := ArmTakes(codec, s1, tid, c, b);
    var s3, permit := ArmBegins(codec, s2, tid, c, b, s.prepared.m[b.head.id].capability);
    var s4 := ArmDelivers(codec, s3, tid, c, b, permit);
    path := [s, s1, s2, s3, s4];
  }

  /** The executor has the action, its permit is filed for its session, and the journal is as it was. */
  predicate Handed(s: Sys, s': Sys, b: Batch) {
    && s'.log == s.log + [Delivered(b.head, true)]
    && b.head.id in s'.executing.m && s'.executing.m[b.head.id].session == b.session && b.head.id !in s'.prepared.m
    && s'.journal.entries == s.journal.entries
  }

  /**
   * In every state a run can reach: left alone for four steps, the handler
   * delivers such an action under a permit and files the permit, and nothing
   * is written to the journal before the executor reports back.
   */
  lemma ArmedIsDelivered(codec: Codec, s: Sys, tid: nat, c: Choice, b: Batch) returns (path: seq<Sys>)
    requires Sound(codec, s) && ReadyToArm(codec, s, tid, b)
    ensures Alone(codec, tid, c, path) && |path| == 5 && path[0] == s
    ensures Handed(s, path[4], b)
  {
    hide Continue;
    CapabilityIsGood(s, b.head.id);
    path := GoodCapabilityDelivers(codec, s, tid, c, b);
  }

  // ----------------------------------------------------------------- completion

  /** An executor reports on an action of its own session that it holds the permit of. */
  predicate ReadyToComplete(s: Sys, tid: nat, session: Uuid, a: Uuid, succeeded: bool) {
    && Doing(s, tid, Bare(false, CompleteTake(session, a, succeeded)))
    && a in s.executing.m && s.executing.m[a].session == session
  }

  lemma {:induction false} CompletionTakes(codec: Codec, s: Sys, tid: nat, c: Choice, session: Uuid, a: Uuid,
                                           succeeded: bool)
    returns (s': Sys)
    requires ReadyToComplete(s, tid, session, a, succeeded)
    ensures Moves(codec, s, tid, c, s')
    ensures Doing(s', tid, Completing(s.executing.m[a].permit, succeeded))
    ensures s'.journal == s.journal && s'.executing == s.executing.Without({a}) && s'.minted == s.minted
  {
    s' := Goes(codec, s, tid, c, Bare(false, CompleteTake(session, a, succeeded)));
  }

  function ReceiptOf(j: A.State, a: Uuid, minted: Uuid, succeeded: bool): J.Entry {
    J.Entry(j.nextSequence, a,
            J.DispatchLinearized(minted, if succeeded then J.DispatchedFull else J.DispatchAmbiguous))
  }

  lemma {:induction false} PermitIsGood(j: A.State, permit: A.Permit, minted: Uuid, succeeded: bool, durable: bool)
    requires A.Valid(j) && A.Honours(j, permit)
    ensures var result := if succeeded then J.DispatchedFull else J.DispatchAmbiguous;
            var j' := A.Linearize(j, permit, result, durable, minted).0;
            && j'.entries
               == (if durable then j.entries + [ReceiptOf(j, permit.action, minted, succeeded)] else j.entries)
            && J.RecoveryOf(j'.entries, permit.action) == Some(if durable then J.PossiblyDispatched else J.Prepared)
  {
    assert A.StillPrepared(j, permit.action, permit.grant);
    J.RecoveryAppend(j.entries, ReceiptOf(j, permit.action, minted, succeeded), permit.action);
  }

  lemma {:induction false} CompletionWrites(codec: Codec, s: Sys, tid: nat, c: Choice, permit: A.Permit,
                                            succeeded: bool)
    returns (s': Sys)
    requires Doing(s, tid, Completing(permit, succeeded))
    ensures Moves(codec, s, tid, c, s')
    ensures tid !in s'.tasks.m && s'.executing == s.executing
    ensures var result := if succeeded then J.DispatchedFull else J.DispatchAmbiguous;
            s'.journal == A.Linearize(s.journal, permit, result, c.ok, s.minted).0
  {
    s' := Goes(codec, s, tid, c, Completing(permit, succeeded));
  }

  lemma HeldPermitIsGood(s: Sys, a: Uuid)
    requires Governed(s) && a in s.executing.m
    ensures s.executing.m[a].permit.action == a && A.Honours(s.journal, s.executing.m[a].permit)
  {
    OfAction(s, a);
  }

  /** The receipt is written, or the action is durably still prepared. */
  predicate Reported(s: Sys, j': A.State, a: Uuid, succeeded: bool, durable: bool) {
    && j'.entries
       == (if durable then s.journal.entries + [ReceiptOf(s.journal, a, s.minted, succeeded)] else s.journal.entries)
    && J.RecoveryOf(j'.entries, a) == Some(if durable then J.PossiblyDispatched else J.Prepared)
  }

  lemma {:induction false} GoodPermitReports(codec: Codec, s: Sys, tid: nat, c: Choice, session: Uuid, a: Uuid,
                                             succeeded: bool)
    returns (path: seq<Sys>)
    requires A.Valid(s.journal) && ReadyToComplete(s, tid, session, a, succeeded)
    requires s.executing.m[a].permit.action == a && A.Honours(s.journal, s.executing.m[a].permit)
    ensures Alone(codec, tid, c, path) && |path| == 3 && path[0] == s
    ensures tid !in path[2].tasks.m && a !in path[2].executing.m && Reported(s, path[2].journal, a, succeeded, c.ok)
  {
    hide Continue;
    var permit := s.executing.m[a].permit;
    PermitIsGood(s.journal, permit, s.minted, succeeded, c.ok);
    var s1 := CompletionTakes(codec, s, tid, c, session, a, succeeded);
    var s2 := CompletionWrites(codec, s1, tid, c, permit, succeeded);
    path := [s, s1, s2];
  }

  /**
   * What is reported becomes the action's one dispatch receipt, ambiguous unless it succeeded; only
   * a failed append loses it.
   */
  lemma CompletionIsRecorded(codec: Codec, s: Sys, tid: nat, c: Choice, session: Uuid, a: Uuid, succeeded: bool)
    returns (path: seq<Sys>)
    requires Sound(codec, s) && ReadyToComplete(s, tid, session, a, succeeded)
    ensures Alone(codec, tid, c, path) && |path| == 3 && path[0] == s
    ensures tid !in path[2].tasks.m && a !in path[2].executing.m && Reported(s, path[2].journal, a, succeeded, c.ok)
  {
    hide Continue;
    HeldPermitIsGood(s, a);
    path := GoodPermitReports(codec, s, tid, c, session, a, succeeded);
  }

  // ------------------------------------------------------------- reconciliation

  /** The surface stays as planned, the snapshot arrives, every append is durable. */
  predicate GoesWell(c: Choice, authority: Authority) {
    && c.ok && !Blank(c.receiptId)
    && SurfaceIs(c.surface, c.lineage, authority) && SurfaceIs(c.surfaceAfter, c.lineageAfter, authority)
  }

  predicate Matches(j: A.State, a: Uuid, initial: Record) { AdmittedFor(j, a, initial.authority, initial.expected) }

  /** Reconciliation of a recorded action that the journal lets be observed has just begun. */
  predicate ReadyToReconcile(s: Sys, tid: nat, a: Uuid, initial: Record) {
    && Doing(s, tid, Bare(false, ReconcileBefore(a, initial))) && a in s.records.m
    && A.MayObserve(s.journal, a)
  }

  /** In every state a run can reach, the record under reconciliation is that of the admitted action. */
  lemma RecordIsOfAdmission(codec: Codec, s: Sys, tid: nat, a: Uuid, initial: Record)
    requires Sound(codec, s) && ReadyToReconcile(s, tid, a, initial)
    ensures Matches(s.journal, a, initial)
  {
    hide A.Valid, Holds, Inv;
    TaskIsOk(codec, s, tid);
  }

  /** The status the registry's verdicts call for. */
  function CalledFor(expected: seq<string>, verdicts: map<string, ContractStatus>): Status {
    if exists r | r in expected :: r in verdicts && verdicts[r] == VerifiedFail then Status.VerifiedUnexpected
    else if forall r | r in expected :: r in verdicts && verdicts[r] == VerifiedPass then Status.VerifiedExpected
    else Status.ReconciliationRequired
  }

  /** An observation of this action, made after its dispatch under the admitted lineage. */
  predicate ObservedAs(j: A.State, o: A.ObservationReceipt, a: Uuid) {
    && o.action == a && J.AdmittedEnvelope(j.entries, a).Some?
    && LineageMatches(o, J.AdmittedEnvelope(j.entries, a).value)
    && o.cut.PostDispatchCut? && !Blank(o.reconciliationRef) && J.CauseOf(j.entries, a) == Some(o.cause)
    && o.cause.sequence <= |j.entries|
  }

  lemma {:induction false} CauseIsEarlier(es: seq<J.Entry>, a: Uuid)
    requires J.History(es, J.Append) && J.CauseOf(es, a).Some?
    ensures J.CauseOf(es, a).value.sequence <= |es|
  {
    var n := |es| - 1;
    var e := es[n];
    if !(e.action == a && (e.transition.DispatchLinearized? || e.transition.DispatchPrepared?)) {
      CauseIsEarlier(es[..n], a);
    }
  }

  lemma {:induction false} ReconcileLooks(codec: Codec, s: Sys, tid: nat, c: Choice, a: Uuid, initial: Record)
    returns (s': Sys)
    requires Doing(s, tid, Bare(false, ReconcileBefore(a, initial)))
    requires SurfaceIs(c.surface, c.lineage, initial.authority)
    ensures Moves(codec, s, tid, c, s')
    ensures s' == Become(s, tid, Bare(false, ReconcileBegin(a, initial, initial.authority)))
  {
    s' := Goes(codec, s, tid, c, Bare(false, ReconcileBefore(a, initial)));
  }

  lemma {:induction false} ReconcileBegins(codec: Codec, s: Sys, tid: nat, c: Choice, a: Uuid, initial: Record)
    returns (s': Sys, permit: A.ObservationPermit)
    requires Doing(s, tid, Bare(false, ReconcileBegin(a, initial, initial.authority))) && A.MayObserve(s.journal, a)
    ensures Moves(codec, s, tid, c, s')
    ensures Doing(s', tid, Bare(false, ReconcileSnapshot(a, initial, initial.authority, permit)))
    ensures A.BeginObservation(s.journal, a, s.minted) == (s'.journal, Some(permit)) && s'.records == s.records
  {
    s' := Goes(codec, s, tid, c, Bare(false, ReconcileBegin(a, initial, initial.authority)));
    permit := A.BeginObservation(s.journal, a, s.minted).1.value;
  }

  lemma {:induction false} ReconcileSnaps(codec: Codec, s: Sys, tid: nat, c: Choice, a: Uuid, initial: Record,
                                         permit: A.ObservationPermit, o: A.ObservationReceipt) returns (s': Sys)
    requires Doing(s, tid, Bare(false, ReconcileSnapshot(a, initial, initial.authority, permit)))
    requires GoesWell(c, initial.authority)
    requires A.CompleteObservation(s.journal, permit,
               A.Snapshot(c.receiptId, initial.authority.provider, initial.authority.target, permit.grant.cut)).1
                 == Some(o)
    ensures Moves(codec, s, tid, c, s')
    ensures Doing(s', tid, Bare(false, ReconcileReceipt(a, initial, o))) && s'.records == s.records
    ensures s'.journal.entries == s.journal.entries && s'.journal.nextSequence == s.journal.nextSequence
  {
    s' := Goes(codec, s, tid, c, Bare(false, ReconcileSnapshot(a, initial, initial.authority, permit)));
  }

  /** An observation begun by the journal and completed with a snapshot of the same surface. */
  lemma {:induction false} ObservationCompletes(j: A.State, a: Uuid, minted: Uuid, receiptId: string, initial: Record)
    returns (o: A.ObservationReceipt)
    requires A.Valid(j) && A.MayObserve(j, a) && Matches(j, a, initial) && !Blank(receiptId)
    ensures var (j', permit) := A.BeginObservation(j, a, minted);
            && permit.Some? && ObservedAs(j, o, a) && j'.entries == j.entries && j'.nextSequence == j.nextSequence
            && A.CompleteObservation(j', permit.value,
                 A.Snapshot(receiptId, initial.authority.provider, initial.authority.target, permit.value.grant.cut)).1
                   == Some(o)
  {
    var (j', permit) := A.BeginObservation(j, a, minted);
    CauseIsEarlier(j.entries, a);
    o := A.CompleteObservation(j', permit.value,
           A.Snapshot(receiptId, initial.authority.provider, initial.authority.target, permit.value.grant.cut)).1.value;
  }

  /** The evidence of a record covers its own contracts and names its receipts. */
  lemma EvidenceIsNamed(refs: seq<string>, verdicts: map<string, ContractStatus>)
    ensures var e := Evidence(refs, verdicts);
            forall r | r in refs ::
              r in e && e[r].0 == (if r in verdicts then verdicts[r] else Unknown) && !Blank(e[r].1)
  {
    assert !IsWhitespace("evidence:managed-webview"[0]);
  }

  function DraftOf(o: A.ObservationReceipt, initial: Record, c: Choice): J.ReceiptDraft {
    Draft(o, initial.expected, Evidence(initial.expected, c.verdicts))
  }

  function PostconditionEntry(j: A.State, d: J.ReceiptDraft): J.Entry {
    J.Entry(j.nextSequence, d.action, J.PostconditionRecorded(J.Receipt(d, (d.action, j.nextSequence), j.nextSequence)))
  }

  /** The journal takes the receipt of such an observation. */
  lemma {:induction false} ReceiptIsTaken(j: A.State, a: Uuid, initial: Record, o: A.ObservationReceipt, c: Choice)
    requires ObservedAs(j, o, a) && Matches(j, a, initial) && J.Observable(J.RecoveryOf(j.entries, a))
    requires j.nextSequence == |j.entries| + 1
    ensures var d := DraftOf(o, initial, c);
            && d.action == a
            && A.RecordPostcondition(j, d, true) == (A.Appended(j, a, PostconditionEntry(j, d).transition), true)
            && StatusOf(d.verdict) == CalledFor(initial.expected, c.verdicts)
  {
    hide Evidence;
    EvidenceIsNamed(initial.expected, c.verdicts);
    Drafts.DraftsAreWellFormed(o, initial.expected, Evidence(initial.expected, c.verdicts));
    var d := DraftOf(o, initial, c);
    DraftIsValid(j, a, o, d);
  }

  lemma {:induction false} DraftIsValid(j: A.State, a: Uuid, o: A.ObservationReceipt, d: J.ReceiptDraft)
    requires ObservedAs(j, o, a) && j.nextSequence == |j.entries| + 1
    requires var env := J.AdmittedEnvelope(j.entries, a).value;
             env.expected == d.expected && env.preconditionCut.PreconditionCut?
    requires J.ExactPartition(d) && J.BindingsValid(d) && d.verdict == J.PartitionVerdict(d.failed, d.unresolved)
    requires d.action == a && d.session == o.session && d.provider == o.provider && d.target == o.target
    requires d.observationCut == o.cut && d.reconciliationRef == o.reconciliationRef && d.cause == o.cause
    ensures J.ReceiptValid(j.entries, a, J.Receipt(d, (a, j.nextSequence), j.nextSequence))
  {
  }

  lemma {:induction false} ReconcileRecords(codec: Codec, s: Sys, tid: nat, c: Choice, a: Uuid, initial: Record,
                                            o: A.ObservationReceipt)
    returns (s': Sys)
    requires Doing(s, tid, Bare(false, ReconcileReceipt(a, initial, o))) && c.ok
    requires J.AdmittedEnvelope(s.journal.entries, a).Some?
    requires var env := J.AdmittedEnvelope(s.journal.entries, a).value;
             LineageMatches(o, env) && env.expected == initial.expected
    requires A.RecordPostcondition(s.journal, DraftOf(o, initial, c), true).1
    ensures Moves(codec, s, tid, c, s')
    ensures Doing(s', tid, Bare(false, ReconcileCommit(a, DraftOf(o, initial, c).verdict))) && s'.records == s.records
    ensures s'.journal == A.RecordPostcondition(s.journal, DraftOf(o, initial, c), true).0
  {
    s' := Goes(codec, s, tid, c, Bare(false, ReconcileReceipt(a, initial, o)));
    ReceiptStep(s, tid, c, a, initial, o);
  }

  lemma {:induction false} ReceiptStep(s: Sys, tid: nat, c: Choice, a: Uuid, initial: Record, o: A.ObservationReceipt)
    requires c.ok && J.AdmittedEnvelope(s.journal.entries, a).Some?
    requires var env := J.AdmittedEnvelope(s.journal.entries, a).value;
             LineageMatches(o, env) && env.expected == initial.expected
    ensures var d := DraftOf(o, initial, c);
            var (j, ok) := A.RecordPostcondition(s.journal, d, true);
            var s' := Become(s.(journal := j), tid, Bare(false, ReconcileCommit(a, d.verdict)));
            ok ==> StepReconcile(s, tid, ReconcileReceipt(a, initial, o), c) == s'
  {
  }

  lemma {:induction false} ReconcileCommits(codec: Codec, s: Sys, tid: nat, c: Choice, a: Uuid, verdict: J.Verdict)
    returns (s': Sys)
    requires Doing(s, tid, Bare(false, ReconcileCommit(a, verdict))) && c.ok
    requires (verdict == J.VerifiedExpected) == (J.RecoveryOf(s.journal.entries, a) == Some(J.VerifiedUncommitted))
    ensures Moves(codec, s, tid, c, s')
    ensures Doing(s', tid, Bare(false, ReconcileFinish(a, StatusOf(verdict)))) && s'.records == s.records
    ensures verdict == J.VerifiedExpected ==> J.RecoveryOf(s'.journal.entries, a) == Some(J.CommittedState)
    ensures verdict != J.VerifiedExpected ==> s'.journal == s.journal
  {
    hide J.RecoveryOf;
    s' := Goes(codec, s, tid, c, Bare(false, ReconcileCommit(a, verdict)));
    J.RecoveryAppend(s.journal.entries, J.Entry(s.journal.nextSequence, a, J.Committed), a);
  }

  lemma {:induction false} ReconcileFinishes(codec: Codec, s: Sys, tid: nat, c: Choice, a: Uuid, status: Status)
    returns (s': Sys)
    requires Doing(s, tid, Bare(false, ReconcileFinish(a, status))) && a in s.records.m
    ensures Moves(codec, s, tid, c, s')
    ensures tid !in s'.tasks.m && a in s'.records.m && s'.records.m[a] == s.records.m[a].(status := status)
    ensures s'.journal == s.journal
  {
    s' := Goes(codec, s, tid, c, Bare(false, ReconcileFinish(a, status)));
  }

  lemma {:induction false} ReconcileObserves(codec: Codec, s: Sys, tid: nat, c: Choice, a: Uuid, initial: Record)
    returns (s1: Sys, s2: Sys, s3: Sys, o: A.ObservationReceipt)
    requires A.Valid(s.journal) && ReadyToReconcile(s, tid, a, initial) && GoesWell(c, initial.authority)
    requires Matches(s.journal, a, initial)
    ensures Moves(codec, s, tid, c, s1) && Moves(codec, s1, tid, c, s2) && Moves(codec, s2, tid, c, s3)
    ensures Doing(s3, tid, Bare(false, ReconcileReceipt(a, initial, o))) && ObservedAs(s.journal, o, a)
    ensures s3.journal.entries == s.journal.entries && s3.journal.nextSequence == s.journal.nextSequence
    ensures s3.records == s.records
  {
    s1 := ReconcileLooks(codec, s, tid, c, a, initial);
    var permit;
    s2, permit := ReconcileBegins(codec, s1, tid, c, a, initial);
    o := ObservationCompletes(s.journal, a, s1.minted, c.receiptId, initial);
    s3 := ReconcileSnaps(codec, s2, tid, c, a, initial, permit, o);
  }

  /** The record has its status, and the action is committed exactly when that is verified-expected. */
  predicate Concluded(s: Sys, s': Sys, a: Uuid, status: Status) {
    && a in s.records.m && a in s'.records.m && s'.records.m[a] == s.records.m[a].(status := status)
    && (status == Status.VerifiedExpected <==> J.RecoveryOf(s'.journal.entries, a) == Some(J.CommittedState))
  }

  lemma {:induction false} ReconcileSettles(codec: Codec, s: Sys, tid: nat, c: Choice, a: Uuid, initial: Record,
                                            o: A.ObservationReceipt)
    returns (s1: Sys, s2: Sys, s3: Sys)
    requires Doing(s, tid, Bare(false, ReconcileReceipt(a, initial, o))) && c.ok && a in s.records.m
    requires ObservedAs(s.journal, o, a) && Matches(s.journal, a, initial)
    requires J.Observable(J.RecoveryOf(s.journal.entries, a)) && s.journal.nextSequence == |s.journal.entries| + 1
    ensures Moves(codec, s, tid, c, s1) && Moves(codec, s1, tid, c, s2) && Moves(codec, s2, tid, c, s3)
    ensures tid !in s3.tasks.m && Concluded(s, s3, a, CalledFor(initial.expected, c.verdicts))
  {
    hide Continue;
    ReceiptIsTaken(s.journal, a, initial, o, c);
    var d := DraftOf(o, initial, c);
    s1 := ReconcileRecords(codec, s, tid, c, a, initial, o);
    J.RecoveryAppend(s.journal.entries, PostconditionEntry(s.journal, d), a);
    s2 := ReconcileCommits(codec, s1, tid, c, a, d.verdict);
    s3 := ReconcileFinishes(codec, s2, tid, c, a, StatusOf(d.verdict));
  }

  lemma {:induction false} MatchingConcludes(codec: Codec, s: Sys, tid: nat, c: Choice, a: Uuid, initial: Record)
    returns (path: seq<Sys>)
    requires A.Valid(s.journal) && ReadyToReconcile(s, tid, a, initial) && GoesWell(c, initial.authority)
    requires Matches(s.journal, a, initial)
    ensures Alone(codec, tid, c, path) && |path| == 7 && path[0] == s
    ensures tid !in path[6].tasks.m && Concluded(s, path[6], a, CalledFor(initial.expected, c.verdicts))
  {
    hide Continue;
    var s1, s2, s3, o := ReconcileObserves(codec, s, tid, c, a, initial);
    var s4, s5, s6 := ReconcileSettles(codec, s3, tid, c, a, initial, o);
    path := [s, s1, s2, s3, s4, s5, s6];
  }

  /**
   * Left alone for six steps, reconciliation writes the status the verdicts
   * call for: unexpected if any contract failed, expected if all passed, and
   * reconciliation still required otherwise. The action is committed exactly
   * when all passed.
   */
  lemma ReconcileConcludes(codec: Codec, s: Sys, tid: nat, c: Choice, a: Uuid, initial: Record) returns (path: seq<Sys>)
    requires Sound(codec, s) && ReadyToReconcile(s, tid, a, initial) && GoesWell(c, initial.authority)
    ensures Alone(codec, tid, c, path) && |path| == 7 && path[0] == s
    ensures tid !in path[6].tasks.m && Concluded(s, path[6], a, CalledFor(initial.expected, c.verdicts))
  {
    hide Continue;
    RecordIsOfAdmission(codec, s, tid, a, initial);
    path := MatchingConcludes(codec, s, tid, c, a, initial);
  }
}
