/**
 * The rules of the journal told of its entries alone: where an entry stands,
 * what stands last before it for the same action, and what it says.
 */
module JournalRules {
  import opened Common
  import opened Journal

  /** The last entry of the action. */
  predicate IsLatest(es: seq<Entry>, a: Uuid, k: nat) {
    k < |es| && es[k].action == a && forall j | k < j < |es| :: es[j].action != a
  }

  predicate Unknown(es: seq<Entry>, a: Uuid) { forall k | 0 <= k < |es| :: es[k].action != a }

  /** The first admission of the action. */
  predicate IsAdmission(es: seq<Entry>, a: Uuid, k: nat) {
    && k < |es| && es[k].action == a && es[k].transition.IntentAdmitted?
    && forall j | 0 <= j < k :: !(es[j].action == a && es[j].transition.IntentAdmitted?)
  }

  /** The last receipt or preparation of the action. */
  predicate IsDispatch(es: seq<Entry>, a: Uuid, k: nat) {
    && k < |es| && es[k].action == a && (es[k].transition.DispatchLinearized? || es[k].transition.DispatchPrepared?)
    && forall j | k < j < |es| && es[j].action == a ::
         !es[j].transition.DispatchLinearized? && !es[j].transition.DispatchPrepared?
  }

  /** The executor may have carried the action out. */
  predicate WasDispatched(t: Transition) {
    t.DispatchLinearized? && t.result in {DispatchedFull, DispatchedPartial, DispatchAmbiguous}
  }

  /** An observation or an outcome that did not come out as expected. */
  predicate LeftOpen(t: Transition) {
    || (t.PostconditionRecorded? && t.receipt.draft.verdict != VerifiedExpected)
    || t == LegacyOutcome(false)
  }

  predicate CameOut(t: Transition) {
    (t.PostconditionRecorded? && t.receipt.draft.verdict == VerifiedExpected) || t == LegacyOutcome(true)
  }

  /** What the latest entry of an action means for its recovery. */
  predicate Means(t: Transition, st: RecoveryState) {
    match st
    case Admitted => t.IntentAdmitted?
    case AuthorizedNotDispatched => t.AuthorizationRecorded?
    case Prepared => t.DispatchPrepared?
    case PossiblyDispatched => WasDispatched(t)
    case KnownNotDispatched => t.DispatchLinearized? && !WasDispatched(t)
    case OutcomeObservedUnverified => LeftOpen(t)
    case VerifiedUncommitted => CameOut(t)
    case Compensated => t == CompensationRecorded(true)
    case CompensationFailed => t == CompensationRecorded(false)
    case CommittedState => t.Committed?
  }

  predicate HasText(s: string) { exists i :: 0 <= i < |s| && !IsWhitespace(s[i]) }

  /** A preparation repeats the admission and names the authorisation, given again and under the admitted revision. */
  predicate Repeats(p: PreparationReceipt, auth: Entry, env: Envelope) {
    && auth.transition == AuthorizationRecorded(env.authorizationRevision, true)
    && p == PreparationReceipt(p.receiptRef, auth.sequence, env.preconditionCut, env.provider, env.target)
    && HasText(p.receiptRef)
  }

  /** The contracts are those admitted, all different, each once under one of the three classes. */
  predicate Classifies(d: ReceiptDraft, env: Envelope) {
    && d.expected == env.expected && env.expected != []
    && multiset(d.verified) + multiset(d.failed) + multiset(d.unresolved) == multiset(env.expected)
    && (forall c | c in env.expected :: multiset(env.expected)[c] == 1)
    && (d.verdict == VerifiedUnexpected <==> d.failed != [])
    && (d.verdict == VerifiedExpected <==> d.failed == [] && d.unresolved == [])
  }

  function BoundContracts(d: ReceiptDraft): seq<string> {
    seq(|d.bindings|, i requires 0 <= i < |d.bindings| => d.bindings[i].contractRef)
  }

  function BoundReceipts(d: ReceiptDraft): seq<string> {
    seq(|d.bindings|, i requires 0 <= i < |d.bindings| => d.bindings[i].receiptRef)
  }

  /** Evidence is bound to admitted contracts, once each, to every decided one, and summed up in order. */
  predicate Supports(d: ReceiptDraft, env: Envelope) {
    && multiset(BoundContracts(d)) <= multiset(env.expected) && ToSet(d.verified + d.failed) <= ToSet(BoundContracts(d))
    && d.evidenceRefs == BoundReceipts(d) && forall r | r in d.evidenceRefs :: HasText(r)
  }

  /** An observation of this action, of the admitted session and lineage, later than its dispatch and not its own. */
  ghost predicate Observes(es: seq<Entry>, a: Uuid, r: Receipt, env: Envelope) {
    var d := r.draft;
    && (d.action, d.session, d.provider, d.target) == (a, env.session, env.provider, env.target)
    && d.observationCut != env.preconditionCut && (d.observationCut.PreconditionCut? ==> HasText(d.observationCut.text))
    && HasText(d.reconciliationRef)
    && r.completionSequence == |es| + 1 && r.identity == (a, |es| + 1) && d.cause.sequence <= |es|
    && exists k: nat :: IsDispatch(es, a, k) && d.cause == CauseAt(es[k])
  }

  function CauseAt(e: Entry): Cause
    requires e.transition.DispatchLinearized? || e.transition.DispatchPrepared?
  {
    match e.transition
    case DispatchLinearized(receiptRef, _) => AfterLinearized(e.sequence, receiptRef)
    case DispatchPrepared(p) => AfterPrepared(e.sequence, p.receiptRef)
  }

  /** What has to stand in the journal for an entry to be written behind it. */
  ghost predicate Justified(es: seq<Entry>, a: Uuid, t: Transition, mode: Mode) {
    match t
    case IntentAdmitted(env) => Unknown(es, a) && env.transportAction == a
    case AuthorizationRecorded(_, _) =>
      exists k: nat ::
        IsLatest(es, a, k) && (es[k].transition.IntentAdmitted? || es[k].transition.AuthorizationRecorded?)
    case DispatchPrepared(p) =>
      exists k: nat, f: nat ::
        IsLatest(es, a, k) && IsAdmission(es, a, f) && Repeats(p, es[k], es[f].transition.envelope)
    case DispatchLinearized(_, _) =>
      exists k: nat ::
        && IsLatest(es, a, k)
        && (es[k].transition.DispatchPrepared? || (mode == Replay && es[k].transition.AuthorizationRecorded?))
    case PostconditionRecorded(r) =>
      exists k: nat, f: nat ::
        && IsLatest(es, a, k) && IsAdmission(es, a, f)
        && (es[k].transition.DispatchPrepared? || WasDispatched(es[k].transition) || LeftOpen(es[k].transition))
        && var env := es[f].transition.envelope;
        && Observes(es, a, r, env) && Classifies(r.draft, env) && Supports(r.draft, env)
    case LegacyOutcome(_) =>
      && mode == Replay
      && exists k: nat ::
           && IsLatest(es, a, k)
           && (es[k].transition.DispatchPrepared? || es[k].transition.DispatchLinearized? || LeftOpen(es[k].transition))
    case CompensationRecorded(_) => exists k: nat :: IsLatest(es, a, k) && LeftOpen(es[k].transition)
    case Committed => exists k: nat :: IsLatest(es, a, k) && CameOut(es[k].transition)
  }

  // -------------------------------------------------------------------- the proofs

  lemma MeansIsStateAfter(t: Transition, st: RecoveryState)
    ensures StateAfter(t) == st <==> Means(t, st)
  {
  }

  lemma {:induction false} LatestMeans(es: seq<Entry>, a: Uuid, k: nat)
    requires IsLatest(es, a, k)
    ensures RecoveryOf(es, a) == Some(StateAfter(es[k].transition))
  {
    hide StateAfter;
    if k < |es| - 1 { LatestMeans(es[..|es| - 1], a, k); }
  }

  lemma {:induction false} HasLatest(es: seq<Entry>, a: Uuid) returns (k: nat)
    requires RecoveryOf(es, a).Some?
    ensures IsLatest(es, a, k) && RecoveryOf(es, a) == Some(StateAfter(es[k].transition))
  {
    hide StateAfter;
    k := |es| - 1;
    if es[k].action != a { k := HasLatest(es[..|es| - 1], a); }
  }

  lemma {:induction false} UnheardHasNone(es: seq<Entry>, a: Uuid)
    ensures RecoveryOf(es, a) == None <==> Unknown(es, a)
  {
    hide StateAfter;
    if es != [] { UnheardHasNone(es[..|es| - 1], a); }
  }

  /** The state of an action is what its latest entry means; an action without entries has none. */
  lemma RecoveryIsLatest(es: seq<Entry>, a: Uuid, st: RecoveryState)
    ensures RecoveryOf(es, a) == Some(st) <==> exists k: nat :: IsLatest(es, a, k) && Means(es[k].transition, st)
    ensures RecoveryOf(es, a) == None <==> Unknown(es, a)
  {
    hide StateAfter, Means, RecoveryOf;
    UnheardHasNone(es, a);
    if RecoveryOf(es, a).Some? {
      var k := HasLatest(es, a);
      MeansIsStateAfter(es[k].transition, st);
    }
    if k: nat :| IsLatest(es, a, k) && Means(es[k].transition, st) {
      LatestMeans(es, a, k);
      MeansIsStateAfter(es[k].transition, st);
    }
  }

  lemma {:induction false} EnvelopeIsAdmission(es: seq<Entry>, a: Uuid, env: Envelope)
    ensures AdmittedEnvelope(es, a) == Some(env) <==>
              exists k: nat :: IsAdmission(es, a, k) && es[k].transition.envelope == env
  {
    if es == [] {
    } else if es[0].action == a && es[0].transition.IntentAdmitted? {
      assert IsAdmission(es, a, 0);
    } else {
      EnvelopeIsAdmission(es[1..], a, env);
      forall k: nat ensures IsAdmission(es[1..], a, k) <==> IsAdmission(es, a, k + 1) { AdmissionShifts(es, a, k); }
      if k: nat :| IsAdmission(es, a, k) && es[k].transition.envelope == env {
        assert IsAdmission(es[1..], a, k - 1);
      }
      if k: nat :| IsAdmission(es[1..], a, k) && es[1..][k].transition.envelope == env {
        assert IsAdmission(es, a, k + 1);
      }
    }
  }

  lemma AdmissionShifts(es: seq<Entry>, a: Uuid, k: nat)
    requires es != [] && !(es[0].action == a && es[0].transition.IntentAdmitted?)
    ensures IsAdmission(es[1..], a, k) <==> IsAdmission(es, a, k + 1)
  {
    assert forall j | 0 <= j < |es| - 1 :: es[1..][j] == es[j + 1];
    if IsAdmission(es[1..], a, k) {
      forall j | 0 <= j < k + 1 ensures !(es[j].action == a && es[j].transition.IntentAdmitted?) {
        if j > 0 { assert es[1..][j - 1] == es[j]; }
      }
    }
  }

  lemma {:induction false} CauseIsDispatch(es: seq<Entry>, a: Uuid, cause: Cause)
    ensures CauseOf(es, a) == Some(cause) <==> exists k: nat :: IsDispatch(es, a, k) && cause == CauseAt(es[k])
  {
    if es != [] {
      var n := |es| - 1;
      CauseIsDispatch(es[..n], a, cause);
      if es[n].action == a && (es[n].transition.DispatchLinearized? || es[n].transition.DispatchPrepared?) {
        assert IsDispatch(es, a, n);
      } else {
        forall k: nat ensures IsDispatch(es, a, k) <==> IsDispatch(es[..n], a, k) { }
      }
    }
  }

  lemma OneLatest(es: seq<Entry>, a: Uuid, k: nat, l: nat)
    ensures IsLatest(es, a, k) && IsLatest(es, a, l) ==> k == l
    ensures IsAdmission(es, a, k) && IsAdmission(es, a, l) ==> k == l
  {
  }

  lemma AuthorizedLast(es: seq<Entry>, a: Uuid, k: nat)
    requires IsLatest(es, a, k) && es[k].transition.AuthorizationRecorded?
    ensures LatestAuthorization(es, a) == Some(es[k])
  {
    if k < |es| - 1 { AuthorizedLast(es[..|es| - 1], a, k); }
  }

  lemma {:induction false} TextIsNotBlank(s: string)
    ensures HasText(s) <==> !Blank(s)
  {
  }

  lemma PreparationIsJustified(es: seq<Entry>, a: Uuid, p: PreparationReceipt, mode: Mode)
    ensures Allowed(es, a, DispatchPrepared(p), mode) <==> Justified(es, a, DispatchPrepared(p), mode)
  {
    hide RecoveryOf, AdmittedEnvelope, LatestAuthorization, Blank, HasText;
    TextIsNotBlank(p.receiptRef);
    if Allowed(es, a, DispatchPrepared(p), mode) {
      var k := HasLatest(es, a);
      AuthorizedLast(es, a, k);
      EnvelopeIsAdmission(es, a, AdmittedEnvelope(es, a).value);
      var f: nat :| IsAdmission(es, a, f) && es[f].transition.envelope == AdmittedEnvelope(es, a).value;
      assert Repeats(p, es[k], es[f].transition.envelope);
    }
    if k: nat, f: nat :| IsLatest(es, a, k) && IsAdmission(es, a, f) && Repeats(p, es[k], es[f].transition.envelope) {
      LatestMeans(es, a, k);
      AuthorizedLast(es, a, k);
      EnvelopeIsAdmission(es, a, es[f].transition.envelope);
    }
  }

  // ----------------------------------------------------------------- receipts

  lemma {:induction false} DifferentAreOnce(s: seq<string>)
    ensures NoDuplicates(s) <==> forall c | c in s :: multiset(s)[c] == 1
  {
    if s != [] {
      var n := |s| - 1;
      var t, x := s[..n], s[n];
      assert s == t + [x];
      DifferentAreOnce(t);
      if x in t { assert multiset(s)[x] >= 2; }
      if x !in t { assert forall c | c in t :: multiset(s)[c] == multiset(t)[c]; }
      if NoDuplicates(s) { assert x !in t && NoDuplicates(t); }
      if NoDuplicates(t) && x !in t { assert NoDuplicates(s); }
    }
  }

  /** Without repetition, a list is contained in another as a multiset exactly when it is as a set. */
  lemma OnceContained(s: seq<string>, whole: seq<string>)
    requires NoDuplicates(whole)
    ensures multiset(s) <= multiset(whole) <==> NoDuplicates(s) && ToSet(s) <= ToSet(whole)
  {
    DifferentAreOnce(s);
    DifferentAreOnce(whole);
    if multiset(s) <= multiset(whole) {
      forall c | c in s ensures multiset(s)[c] == 1 && c in whole {
        assert c in multiset(s) && multiset(s)[c] <= multiset(whole)[c] && c in multiset(whole);
      }
    }
    if NoDuplicates(s) && ToSet(s) <= ToSet(whole) {
      forall c: string ensures multiset(s)[c] <= multiset(whole)[c] {
        if c in s { assert c in ToSet(whole) && c in whole; }
      }
    }
  }

  lemma OnceSame(s: seq<string>, whole: seq<string>)
    requires NoDuplicates(whole)
    ensures multiset(s) == multiset(whole) <==> NoDuplicates(s) && ToSet(s) == ToSet(whole)
  {
    OnceContained(s, whole);
    if NoDuplicates(s) && ToSet(s) == ToSet(whole) { OnceContained(whole, s); }
    if multiset(s) == multiset(whole) {
      forall c | c in whole ensures c in s { assert c in multiset(whole) && c in multiset(s); }
    }
  }

  lemma ClassifiesIsPartition(d: ReceiptDraft, env: Envelope)
    requires d.expected == env.expected
    ensures Classifies(d, env) <==> ExactPartition(d) && d.verdict == PartitionVerdict(d.failed, d.unresolved)
  {
    hide NoDuplicates, ToSet;
    var all := d.verified + d.failed + d.unresolved;
    assert multiset(all) == multiset(d.verified) + multiset(d.failed) + multiset(d.unresolved);
    DifferentAreOnce(env.expected);
    if NoDuplicates(env.expected) { OnceSame(all, env.expected); }
  }

  lemma SupportsIsBound(d: ReceiptDraft, env: Envelope)
    requires d.expected == env.expected && NoDuplicates(env.expected)
    ensures Supports(d, env) <==> BindingsValid(d)
  {
    hide Supports, BindingsValid;
    if BindingsValid(d) { BoundSupports(d, env); }
    if Supports(d, env) { SupportsBinds(d, env); }
  }

  lemma BoundSupports(d: ReceiptDraft, env: Envelope)
    requires d.expected == env.expected && NoDuplicates(env.expected) && BindingsValid(d)
    ensures Supports(d, env)
  {
    hide Blank, HasText;
    var refs := BoundContracts(d);
    OnceContained(refs, env.expected);
    assert forall i | 0 <= i < |refs| :: refs[i] == d.bindings[i].contractRef;
    assert d.evidenceRefs == BoundReceipts(d);
    forall c | c in d.verified + d.failed ensures c in refs {
      assert Evidenced(d, c);
      var i :| 0 <= i < |d.bindings| && d.bindings[i].contractRef == c;
      assert refs[i] == c;
    }
    forall r | r in d.evidenceRefs ensures HasText(r) {
      var i :| 0 <= i < |d.bindings| && d.evidenceRefs[i] == r;
      TextIsNotBlank(r);
      assert !Blank(d.bindings[i].receiptRef);
    }
  }

  lemma SupportsBinds(d: ReceiptDraft, env: Envelope)
    requires d.expected == env.expected && NoDuplicates(env.expected) && Supports(d, env)
    ensures BindingsValid(d)
  {
    hide Blank, HasText;
    var refs := BoundContracts(d);
    OnceContained(refs, env.expected);
    assert forall i | 0 <= i < |refs| :: refs[i] == d.bindings[i].contractRef;
    assert forall i | 0 <= i < |refs| :: BoundReceipts(d)[i] == d.bindings[i].receiptRef;
    forall i | 0 <= i < |d.bindings|
      ensures d.bindings[i].contractRef in d.expected && !Blank(d.bindings[i].receiptRef)
    {
      assert refs[i] in ToSet(refs);
      TextIsNotBlank(d.evidenceRefs[i]);
    }
    forall c | c in d.verified + d.failed ensures Evidenced(d, c) {
      assert c in ToSet(d.verified + d.failed);
      var i :| 0 <= i < |refs| && refs[i] == c;
      assert d.bindings[i].contractRef == c;
    }
  }

  lemma ReceiptIsFull(es: seq<Entry>, a: Uuid, r: Receipt, env: Envelope)
    requires AdmittedEnvelope(es, a) == Some(env)
    ensures ReceiptValid(es, a, r) <==> Observes(es, a, r, env) && Classifies(r.draft, env) && Supports(r.draft, env)
  {
    hide AdmittedEnvelope, CauseOf, IsDispatch, CauseAt, Blank, HasText, ToSet, Supports, BindingsValid;
    hide PartitionVerdict;
    var d := r.draft;
    CauseIsDispatch(es, a, d.cause);
    TextIsNotBlank(d.reconciliationRef);
    if d.observationCut.PreconditionCut? { TextIsNotBlank(d.observationCut.text); }
    if d.expected == env.expected {
      ClassifiesIsPartition(d, env);
      if NoDuplicates(env.expected) { SupportsIsBound(d, env); }
    }
  }

  /** An observation may be recorded in the states an entry of these kinds leaves behind. */
  lemma ObservableLatest(es: seq<Entry>, a: Uuid, k: nat)
    requires IsLatest(es, a, k)
    ensures Observable(RecoveryOf(es, a)) <==>
              es[k].transition.DispatchPrepared? || WasDispatched(es[k].transition) || LeftOpen(es[k].transition)
  {
    LatestMeans(es, a, k);
  }

  lemma ReceiptIsJustified(es: seq<Entry>, a: Uuid, r: Receipt, mode: Mode)
    ensures Allowed(es, a, PostconditionRecorded(r), mode) <==> Justified(es, a, PostconditionRecorded(r), mode)
  {
    hide RecoveryOf, AdmittedEnvelope, ReceiptValid, Observes, Classifies, Supports, WasDispatched, LeftOpen;
    if Allowed(es, a, PostconditionRecorded(r), mode) {
      var k := HasLatest(es, a);
      ObservableLatest(es, a, k);
      AdmittedWhenValid(es, a, r);
      var env := AdmittedEnvelope(es, a).value;
      EnvelopeIsAdmission(es, a, env);
      var f: nat :| IsAdmission(es, a, f) && es[f].transition.envelope == env;
      ReceiptIsFull(es, a, r, env);
    }
    if Justified(es, a, PostconditionRecorded(r), mode) {
      var k: nat, f: nat :|
        && IsLatest(es, a, k) && IsAdmission(es, a, f)
        && (es[k].transition.DispatchPrepared? || WasDispatched(es[k].transition) || LeftOpen(es[k].transition))
        && var env := es[f].transition.envelope;
        && Observes(es, a, r, env) && Classifies(r.draft, env) && Supports(r.draft, env);
      ObservableLatest(es, a, k);
      EnvelopeIsAdmission(es, a, es[f].transition.envelope);
      ReceiptIsFull(es, a, r, es[f].transition.envelope);
    }
  }

  lemma AdmittedWhenValid(es: seq<Entry>, a: Uuid, r: Receipt)
    requires ReceiptValid(es, a, r)
    ensures AdmittedEnvelope(es, a).Some?
  {
  }

  lemma OthersAreJustified(es: seq<Entry>, a: Uuid, t: Transition, mode: Mode)
    requires !t.DispatchPrepared? && !t.PostconditionRecorded?
    ensures Allowed(es, a, t, mode) <==> Justified(es, a, t, mode)
  {
    hide RecoveryOf;
    UnheardHasNone(es, a);
    if RecoveryOf(es, a).Some? {
      var k := HasLatest(es, a);
      forall l: nat | IsLatest(es, a, l) ensures l == k { OneLatest(es, a, k, l); }
    }
  }

  /**
   * An entry may be written behind a journal exactly when what stands in the
   * journal calls for it: the last entry of its action, the first admission,
   * the last dispatch, and what the entry itself repeats of them.
   */
  lemma AllowedIsJustified(es: seq<Entry>, a: Uuid, t: Transition, mode: Mode)
    ensures Allowed(es, a, t, mode) <==> Justified(es, a, t, mode)
  {
    hide Allowed, Justified;
    match t {
      case DispatchPrepared(p) => PreparationIsJustified(es, a, p, mode);
      case PostconditionRecorded(r) => ReceiptIsJustified(es, a, r, mode);
      case _ => OthersAreJustified(es, a, t, mode);
    }
  }

  /** A journal loads exactly when every entry of it is justified by those before it, in unbroken sequence. */
  lemma {:induction false} HistoryIsJustified(es: seq<Entry>, mode: Mode)
    ensures History(es, mode) <==>
              forall n | 0 <= n < |es| ::
                es[n].sequence == n + 1 && Justified(es[..n], es[n].action, es[n].transition, mode)
  {
    hide Allowed, Justified;
    if es != [] {
      var n := |es| - 1;
      HistoryIsJustified(es[..n], mode);
      AllowedIsJustified(es[..n], es[n].action, es[n].transition, mode);
      assert forall k | 0 <= k < n :: es[..n][..k] == es[..k];
    }
  }
}
