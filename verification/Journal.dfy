/**
 * The consequential-action journal: an append-only list of validated
 * transitions plus process-local one-shot grants.
 */
module Journal {
  import opened Common

  // ---------------------------------------------------------------- entries

  /** A snapshot cut is either taken before dispatch or minted by the journal after it. */
  datatype CutRef =
    | PreconditionCut(text: string)
    | PostDispatchCut(instance: Uuid, action: Uuid, causalSequence: nat, observation: Uuid)
  {
    predicate IsBlank() { PreconditionCut? && Blank(text) }
  }

  datatype Envelope = Envelope(
    transportAction: Uuid,
    session: Uuid,
    authorizationRevision: Uuid,
    preconditionCut: CutRef,
    provider: string,
    target: string,
    expected: seq<string>)

  datatype PreparationReceipt = PreparationReceipt(
    receiptRef: string,
    authorizationSequence: nat,
    preconditionCut: CutRef,
    provider: string,
    target: string)

  datatype DispatchResult =
    | DispatchedFull | DispatchedPartial | DispatchAmbiguous
    | NotDispatched | DispatchRejected
    | BlockedPermission | BlockedIdentity | BlockedFocus | BlockedProvider

  /** Why an observation counts as made after dispatch. */
  datatype Cause =
    | AfterLinearized(sequence: nat, receiptRef: Uuid)
    | AfterPrepared(sequence: nat, preparationRef: string)

  datatype Verdict = VerifiedExpected | VerifiedUnexpected | ReconciliationRequired

  datatype EvidenceBinding = EvidenceBinding(contractRef: string, receiptRef: string)

  /** Everything a reconciliation supplies; identity and ordering are added by the journal. */
  datatype ReceiptDraft = ReceiptDraft(
    action: Uuid,
    session: Uuid,
    provider: string,
    target: string,
    expected: seq<string>,
    observationCut: CutRef,
    reconciliationRef: string,
    evidenceRefs: seq<string>,
    bindings: seq<EvidenceBinding>,
    verified: seq<string>,
    failed: seq<string>,
    unresolved: seq<string>,
    verdict: Verdict,
    cause: Cause)

  datatype Receipt = Receipt(draft: ReceiptDraft, identity: (Uuid, nat), completionSequence: nat)

  datatype Transition =
    | IntentAdmitted(envelope: Envelope)
    | AuthorizationRecorded(revision: Uuid, revalidated: bool)
    | DispatchPrepared(preparation: PreparationReceipt)
    | DispatchLinearized(receiptRef: Uuid, result: DispatchResult)
    | PostconditionRecorded(receipt: Receipt)
    | LegacyOutcome(verifiedExpected: bool)
    | CompensationRecorded(compensatedVerified: bool)
    | Committed

  datatype Entry = Entry(sequence: nat, action: Uuid, transition: Transition)

  datatype RecoveryState =
    | Admitted | AuthorizedNotDispatched | Prepared | KnownNotDispatched | PossiblyDispatched
    | OutcomeObservedUnverified | VerifiedUncommitted | Compensated | CompensationFailed
    | CommittedState

  predicate MayHaveDispatched(r: DispatchResult) {
    r.DispatchedFull? || r.DispatchedPartial? || r.DispatchAmbiguous?
  }

  function StateAfter(t: Transition): RecoveryState {
    match t
    case IntentAdmitted(_) => Admitted
    case AuthorizationRecorded(_, _) => AuthorizedNotDispatched
    case DispatchPrepared(_) => Prepared
    case DispatchLinearized(_, r) => if MayHaveDispatched(r) then PossiblyDispatched else KnownNotDispatched
    case PostconditionRecorded(r) =>
      if r.draft.verdict == VerifiedExpected then VerifiedUncommitted else OutcomeObservedUnverified
    case LegacyOutcome(v) => if v then VerifiedUncommitted else OutcomeObservedUnverified
    case CompensationRecorded(v) => if v then Compensated else CompensationFailed
    case Committed => CommittedState
  }

  /** The durable state of an action: what its latest entry says. */
  function RecoveryOf(es: seq<Entry>, a: Uuid): Option<RecoveryState> {
    if es == [] then None
    else
      var e := es[|es| - 1];
      if e.action == a then Some(StateAfter(e.transition)) else RecoveryOf(es[..|es| - 1], a)
  }

  function AdmittedEnvelope(es: seq<Entry>, a: Uuid): Option<Envelope> {
    if es == [] then None
    else if es[0].action == a && es[0].transition.IntentAdmitted? then Some(es[0].transition.envelope)
    else AdmittedEnvelope(es[1..], a)
  }

  function LatestAuthorization(es: seq<Entry>, a: Uuid): Option<Entry> {
    if es == [] then None
    else
      var e := es[|es| - 1];
      if e.action == a && e.transition.AuthorizationRecorded? then Some(e)
      else LatestAuthorization(es[..|es| - 1], a)
  }

  /** The latest linearized receipt, or failing that the latest preparation, of an action. */
  function CauseOf(es: seq<Entry>, a: Uuid): Option<Cause> {
    if es == [] then None
    else
      var e := es[|es| - 1];
      if e.action == a && e.transition.DispatchLinearized? then
        Some(AfterLinearized(e.sequence, e.transition.receiptRef))
      else if e.action == a && e.transition.DispatchPrepared? then
        Some(AfterPrepared(e.sequence, e.transition.preparation.receiptRef))
      else CauseOf(es[..|es| - 1], a)
  }

  // ------------------------------------------------------------- validation

  datatype Mode = Append | Replay

  predicate Observable(s: Option<RecoveryState>) {
    s.Some? && (s.value.Prepared? || s.value.PossiblyDispatched? || s.value.OutcomeObservedUnverified?)
  }

  predicate PreparationValid(es: seq<Entry>, a: Uuid, p: PreparationReceipt) {
    var env := AdmittedEnvelope(es, a);
    var auth := LatestAuthorization(es, a);
    && env.Some? && auth.Some? && auth.value.transition.AuthorizationRecorded?
    && auth.value.transition.revalidated
    && auth.value.transition.revision == env.value.authorizationRevision
    && !Blank(p.receiptRef)
    && p.authorizationSequence == auth.value.sequence
    && p.preconditionCut == env.value.preconditionCut
    && p.provider == env.value.provider
    && p.target == env.value.target
  }

  function PartitionVerdict(failed: seq<string>, unresolved: seq<string>): Verdict {
    if failed != [] then VerifiedUnexpected
    else if unresolved == [] then VerifiedExpected
    else ReconciliationRequired
  }

  /** The three classifications list every expected contract exactly once. */
  predicate ExactPartition(d: ReceiptDraft) {
    var all := d.verified + d.failed + d.unresolved;
    && NoDuplicates(d.expected) && d.expected != []
    && NoDuplicates(all) && ToSet(all) == ToSet(d.expected)
  }

  predicate BindingsValid(d: ReceiptDraft) {
    && (forall i | 0 <= i < |d.bindings| ::
          d.bindings[i].contractRef in d.expected && !Blank(d.bindings[i].receiptRef))
    && (forall i, j | 0 <= i < j < |d.bindings| :: d.bindings[i].contractRef != d.bindings[j].contractRef)
    && |d.evidenceRefs| == |d.bindings|
    && (forall i | 0 <= i < |d.bindings| :: d.bindings[i].receiptRef == d.evidenceRefs[i])
    && (forall c | c in d.verified + d.failed :: Evidenced(d, c))
  }

  predicate Evidenced(d: ReceiptDraft, contractRef: string) {
    exists i | 0 <= i < |d.bindings| :: d.bindings[i].contractRef == contractRef
  }

  predicate ReceiptValid(es: seq<Entry>, a: Uuid, r: Receipt) {
    var env := AdmittedEnvelope(es, a);
    var d := r.draft;
    && env.Some?
    && d.action == a && d.session == env.value.session
    && d.provider == env.value.provider && d.target == env.value.target
    && d.expected == env.value.expected
    && !d.observationCut.IsBlank() && d.observationCut != env.value.preconditionCut
    && !Blank(d.reconciliationRef)
    && r.completionSequence == |es| + 1
    && r.identity == (a, |es| + 1)
    && d.cause.sequence < |es| + 1
    && CauseOf(es, a) == Some(d.cause)
    && ExactPartition(d)
    && d.verdict == PartitionVerdict(d.failed, d.unresolved)
    && BindingsValid(d)
  }

  /** `validate_transition`: may this transition follow the recorded history? */
  predicate Allowed(es: seq<Entry>, a: Uuid, t: Transition, mode: Mode) {
    var current := RecoveryOf(es, a);
    match t
    case IntentAdmitted(env) => current.None? && env.transportAction == a
    case AuthorizationRecorded(_, _) =>
      current.Some? && (current.value.Admitted? || current.value.AuthorizedNotDispatched?)
    case DispatchPrepared(p) =>
      current == Some(AuthorizedNotDispatched) && PreparationValid(es, a, p)
    case DispatchLinearized(_, _) =>
      current == Some(Prepared) || (mode == Replay && current == Some(AuthorizedNotDispatched))
    case PostconditionRecorded(r) => Observable(current) && ReceiptValid(es, a, r)
    case LegacyOutcome(_) => mode == Replay && (Observable(current) || current == Some(KnownNotDispatched))
    case CompensationRecorded(_) => current == Some(OutcomeObservedUnverified)
    case Committed => current == Some(VerifiedUncommitted)
  }

  /** A journal every entry of which was accepted when it was written. */
  ghost predicate History(es: seq<Entry>, mode: Mode) {
    es == [] ||
    (var n := |es| - 1;
     && History(es[..n], mode)
     && es[n].sequence == n + 1
     && Allowed(es[..n], es[n].action, es[n].transition, mode))
  }

  // --------------------------------------------------- properties of histories

  lemma RecoveryAppend(es: seq<Entry>, e: Entry, a: Uuid)
    ensures RecoveryOf(es + [e], a) ==
            if e.action == a then Some(StateAfter(e.transition)) else RecoveryOf(es, a)
  {
    assert (es + [e])[..|es|] == es;
  }

  lemma {:induction false} EnvelopeAppend(es: seq<Entry>, e: Entry, a: Uuid)
    ensures AdmittedEnvelope(es, a).Some? ==> AdmittedEnvelope(es + [e], a) == AdmittedEnvelope(es, a)
    ensures e.action != a || !e.transition.IntentAdmitted? ==>
              AdmittedEnvelope(es + [e], a) == AdmittedEnvelope(es, a)
  {
    if es == [] {
      assert [e][1..] == [];
    } else {
      assert (es + [e])[1..] == es[1..] + [e];
      EnvelopeAppend(es[1..], e, a);
    }
  }

  /** The first entry of an action, when it admits an intent, is the admission from then on. */
  lemma {:induction false} FirstAdmission(es: seq<Entry>, e: Entry)
    requires RecoveryOf(es, e.action).None? && e.transition.IntentAdmitted?
    ensures AdmittedEnvelope(es + [e], e.action) == Some(e.transition.envelope)
  {
    Unheard(es, e.action);
    AdmittedAtEnd(es, e);
  }

  lemma {:induction false} Unheard(es: seq<Entry>, a: Uuid)
    requires RecoveryOf(es, a).None?
    ensures forall k | 0 <= k < |es| :: es[k].action != a
  {
    if es != [] { Unheard(es[..|es| - 1], a); }
  }

  lemma {:induction false} AdmittedAtEnd(es: seq<Entry>, e: Entry)
    requires (forall k | 0 <= k < |es| :: es[k].action != e.action) && e.transition.IntentAdmitted?
    ensures AdmittedEnvelope(es + [e], e.action) == Some(e.transition.envelope)
  {
    if es != [] {
      assert (es + [e])[1..] == es[1..] + [e];
      AdmittedAtEnd(es[1..], e);
    }
  }

  lemma HistoryAppend(es: seq<Entry>, e: Entry, mode: Mode)
    requires History(es, mode) && e.sequence == |es| + 1 && Allowed(es, e.action, e.transition, mode)
    ensures History(es + [e], mode)
  {
    assert (es + [e])[..|es|] == es;
  }

  /** How far along its life an action is; only re-authorisation and re-observation stay put. */
  function Rank(s: Option<RecoveryState>): nat {
    match s
    case None => 0
    case Some(Admitted) => 1
    case Some(AuthorizedNotDispatched) => 2
    case Some(Prepared) => 3
    case Some(KnownNotDispatched) => 4
    case Some(PossiblyDispatched) => 4
    case Some(OutcomeObservedUnverified) => 5
    case Some(VerifiedUncommitted) => 6
    case Some(Compensated) => 6
    case Some(CompensationFailed) => 6
    case Some(CommittedState) => 7
  }

  /** No accepted transition ever moves an action back, and none leaves the committed state. */
  lemma TransitionsAdvance(es: seq<Entry>, a: Uuid, t: Transition, mode: Mode)
    requires Allowed(es, a, t, mode)
    ensures Rank(RecoveryOf(es, a)) <= Rank(Some(StateAfter(t)))
    ensures Rank(RecoveryOf(es, a)) == Rank(Some(StateAfter(t))) ==>
              t.AuthorizationRecorded? || t.PostconditionRecorded? || t.LegacyOutcome?
    ensures RecoveryOf(es, a) != Some(CommittedState)
  {
  }

  predicate IsDispatchReceipt(t: Transition) { t.DispatchLinearized? }
  predicate IsPreparation(t: Transition) { t.DispatchPrepared? }
  predicate IsNotDispatchedReceipt(t: Transition) { t.DispatchLinearized? && !MayHaveDispatched(t.result) }

  ghost function CountOf(es: seq<Entry>, a: Uuid, p: Transition -> bool): nat {
    if es == [] then 0
    else
      var n := |es| - 1;
      CountOf(es[..n], a, p) + (if es[n].action == a && p(es[n].transition) then 1 else 0)
  }

  lemma CountAppend(es: seq<Entry>, e: Entry, a: Uuid, p: Transition -> bool)
    ensures CountOf(es + [e], a, p) ==
            CountOf(es, a, p) + (if e.action == a && p(e.transition) then 1 else 0)
  {
    assert (es + [e])[..|es|] == es;
  }

  /**
   * Any journal that loads, legacy entries included, holds at most one
   * preparation and at most one dispatch receipt per action, and a receipt
   * leaves the action past the prepared state for good.
   */
  lemma {:induction false} AtMostOneDispatchReceipt(es: seq<Entry>, mode: Mode, a: Uuid)
    requires History(es, mode)
    ensures CountOf(es, a, IsPreparation) <= (if Rank(RecoveryOf(es, a)) >= 3 then 1 else 0)
    ensures CountOf(es, a, IsDispatchReceipt) <= (if Rank(RecoveryOf(es, a)) >= 4 then 1 else 0)
  {
    if es != [] {
      var n := |es| - 1;
      AtMostOneDispatchReceipt(es[..n], mode, a);
      if es[n].action == a {
        TransitionsAdvance(es[..n], a, es[n].transition, mode);
      }
    }
  }

  /** Entry `k` is a receipt proving every admitted postcondition of `a` after its dispatch. */
  ghost predicate ProvesPostconditions(es: seq<Entry>, a: Uuid, k: nat) {
    && k < |es| && es[k].action == a && es[k].transition.PostconditionRecorded?
    && var d := es[k].transition.receipt.draft;
    && var env := AdmittedEnvelope(es, a);
    && env.Some?
    && ToSet(d.verified) == ToSet(env.value.expected) && env.value.expected != []
    && d.failed == [] && d.unresolved == []
    && (forall c | c in env.value.expected :: Evidenced(d, c))
    && d.observationCut != env.value.preconditionCut
    && CauseOf(es[..k], a) == Some(d.cause)
    && d.session == env.value.session && d.provider == env.value.provider && d.target == env.value.target
  }

  lemma ProofPersists(es: seq<Entry>, e: Entry, a: Uuid, k: nat)
    requires ProvesPostconditions(es, a, k)
    ensures ProvesPostconditions(es + [e], a, k)
  {
    EnvelopeAppend(es, e, a);
    assert (es + [e])[..k] == es[..k];
  }

  lemma AcceptedReceiptProves(es: seq<Entry>, e: Entry)
    requires Allowed(es, e.action, e.transition, Append)
    requires e.transition.PostconditionRecorded? && e.transition.receipt.draft.verdict == VerifiedExpected
    ensures ProvesPostconditions(es + [e], e.action, |es|)
  {
    var d := e.transition.receipt.draft;
    EnvelopeAppend(es, e, e.action);
    assert (es + [e])[..|es|] == es;
    assert d.verified + d.failed + d.unresolved == d.verified;
    assert d.verified + d.failed == d.verified;
    forall c | c in d.expected ensures c in d.verified {
      assert c in ToSet(d.expected);
    }
  }

  /**
   * A committed action has, earlier in the journal, a receipt whose
   * observation was made after dispatch and found every postcondition
   * admitted at plan time verified, each with its own evidence.
   */
  lemma {:induction false} CommitMeansProven(es: seq<Entry>, a: Uuid) returns (k: nat)
    requires History(es, Append)
    requires RecoveryOf(es, a) == Some(CommittedState) || RecoveryOf(es, a) == Some(VerifiedUncommitted)
    ensures ProvesPostconditions(es, a, k)
  {
    var n := |es| - 1;
    var e := es[n];
    assert es == es[..n] + [e];
    if e.action == a && e.transition.PostconditionRecorded? {
      AcceptedReceiptProves(es[..n], e);
      k := n;
    } else {
      RecoveryAppend(es[..n], e, a);
      k := CommitMeansProven(es[..n], a);
      ProofPersists(es[..n], e, a, k);
    }
  }
}
