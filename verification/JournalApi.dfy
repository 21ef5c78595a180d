/**
 * The journal's operations: appending validated entries and moving the
 * one-shot authority of an action from capability to permit to receipt.
 * `minted` stands for the UUID the operation draws and `durable` for the
 * outcome of the fsync'd file append.
 */
module JournalApi {
  import opened Common
  import opened Journal

  datatype Grant = Grant(token: Uuid, sequence: nat, receiptRef: string)

  datatype Capability = Capability(instance: Uuid, action: Uuid, grant: Grant)

  datatype Permit = Permit(instance: Uuid, action: Uuid, grant: Grant)

  datatype ObservationGrant = ObservationGrant(
    token: Uuid, session: Uuid, provider: string, target: string, cut: CutRef, cause: Cause)

  datatype ObservationPermit = ObservationPermit(instance: Uuid, action: Uuid, grant: ObservationGrant)

  datatype ObservationReceipt = ObservationReceipt(
    action: Uuid, session: Uuid, provider: string, target: string,
    cut: CutRef, reconciliationRef: string, cause: Cause)

  datatype Snapshot = Snapshot(receiptId: string, provider: string, target: string, cut: CutRef)

  /** Durable entries plus the process-local grants, which a reopen never restores. */
  datatype State = State(
    instance: Uuid,
    nextSequence: nat,
    entries: seq<Entry>,
    prepared: map<Uuid, Grant>,
    execution: map<Uuid, Grant>,
    observation: map<Uuid, ObservationGrant>)

  // ----------------------------------------------------------- specification

  function Appended(j: State, a: Uuid, t: Transition): State {
    j.(entries := j.entries + [Entry(j.nextSequence, a, t)], nextSequence := j.nextSequence + 1)
  }

  function Record(j: State, a: Uuid, t: Transition, durable: bool): (State, bool) {
    if Allowed(j.entries, a, t, Append) && durable then (Appended(j, a, t), true) else (j, false)
  }

  function RecordPrepared(j: State, a: Uuid, p: PreparationReceipt, durable: bool, minted: Uuid)
    : (State, Option<Capability>)
  {
    var (j', ok) := Record(j, a, DispatchPrepared(p), durable);
    if !ok then (j, None)
    else
      var g := Grant(minted, j.nextSequence, p.receiptRef);
      (j'.(prepared := j'.prepared[a := g]), Some(Capability(j.instance, a, g)))
  }

  predicate PreparationRecorded(es: seq<Entry>, a: Uuid, g: Grant) {
    exists i | 0 <= i < |es| ::
      && es[i].action == a && es[i].sequence == g.sequence
      && es[i].transition.DispatchPrepared? && es[i].transition.preparation.receiptRef == g.receiptRef
  }

  predicate StillPrepared(j: State, a: Uuid, g: Grant) {
    RecoveryOf(j.entries, a) == Some(Prepared) && PreparationRecorded(j.entries, a, g)
  }

  function BeginDispatch(j: State, c: Capability, minted: Uuid): (State, Option<Permit>) {
    var a := c.action;
    if c.instance != j.instance || a !in j.prepared || j.prepared[a] != c.grant then (j, None)
    else
      var j' := j.(prepared := j.prepared - {a});
      if !StillPrepared(j, a, c.grant) then (j', None)
      else
        var g := c.grant.(token := minted);
        (j'.(execution := j'.execution[a := g]), Some(Permit(j.instance, a, g)))
  }

  predicate Honours(j: State, p: Permit) {
    p.instance == j.instance && p.action in j.execution && j.execution[p.action] == p.grant
  }

  function AbandonDispatch(j: State, p: Permit): (State, bool) {
    if !Honours(j, p) then (j, false)
    else (j.(execution := j.execution - {p.action}), StillPrepared(j, p.action, p.grant))
  }

  function Linearize(j: State, p: Permit, result: DispatchResult, durable: bool, minted: Uuid): (State, bool) {
    if !Honours(j, p) then (j, false)
    else
      var j' := j.(execution := j.execution - {p.action});
      if !StillPrepared(j, p.action, p.grant) then (j', false)
      else Record(j', p.action, DispatchLinearized(minted, result), durable)
  }

  predicate MayObserve(j: State, a: Uuid) {
    && a !in j.prepared && a !in j.execution && a !in j.observation
    && Observable(RecoveryOf(j.entries, a))
    && AdmittedEnvelope(j.entries, a).Some? && CauseOf(j.entries, a).Some?
  }

  function BeginObservation(j: State, a: Uuid, minted: Uuid): (State, Option<ObservationPermit>) {
    if !MayObserve(j, a) then (j, None)
    else
      var env := AdmittedEnvelope(j.entries, a).value;
      var cause := CauseOf(j.entries, a).value;
      var g := ObservationGrant(minted, env.session, env.provider, env.target,
                                PostDispatchCut(j.instance, a, cause.sequence, minted), cause);
      (j.(observation := j.observation[a := g]), Some(ObservationPermit(j.instance, a, g)))
  }

  predicate HonoursObservation(j: State, p: ObservationPermit) {
    p.instance == j.instance && p.action in j.observation && j.observation[p.action] == p.grant
  }

  function AbandonObservation(j: State, p: ObservationPermit): (State, bool) {
    if HonoursObservation(j, p) then (j.(observation := j.observation - {p.action}), true) else (j, false)
  }

  predicate SnapshotMatches(p: ObservationPermit, s: Snapshot) {
    s.provider == p.grant.provider && s.target == p.grant.target && s.cut == p.grant.cut && !Blank(s.receiptId)
  }

  function CompleteObservation(j: State, p: ObservationPermit, s: Snapshot): (State, Option<ObservationReceipt>) {
    if !HonoursObservation(j, p) then (j, None)
    else
      (j.(observation := j.observation - {p.action}),
       if SnapshotMatches(p, s) then
         Some(ObservationReceipt(p.action, p.grant.session, p.grant.provider, p.grant.target,
                                 s.cut, s.receiptId, p.grant.cause))
       else None)
  }

  function RecordPostcondition(j: State, d: ReceiptDraft, durable: bool): (State, bool) {
    Record(j, d.action,
           PostconditionRecorded(Receipt(d, (d.action, j.nextSequence), j.nextSequence)), durable)
  }

  /** Process restart: the entries survive, every grant is gone and the instance is new. */
  function Reopen(j: State, minted: Uuid): State {
    State(minted, |j.entries| + 1, j.entries, map[], map[], map[])
  }

  /**
   * Every live grant belongs to an action whose durable state is still
   * prepared, and an action under observation has no dispatch authority left.
   */
  ghost predicate Consistent(j: State, mode: Mode) {
    && History(j.entries, mode)
    && j.nextSequence == |j.entries| + 1
    && j.prepared.Keys !! j.execution.Keys
    && (forall a | a in j.prepared :: StillPrepared(j, a, j.prepared[a]))
    && (forall a | a in j.execution :: StillPrepared(j, a, j.execution[a]))
    && (forall a | a in j.observation :: NoDispatchAuthority(j, a))
  }

  /** Consistent, with no entry of a kind that is no longer written. */
  ghost predicate Valid(j: State) { Consistent(j, Append) }

  /** Prepared once and for all: whatever authority the action had is used up. */
  ghost predicate NoDispatchAuthority(j: State, a: Uuid) {
    a !in j.prepared && a !in j.execution && Rank(RecoveryOf(j.entries, a)) >= 3
  }

  // ------------------------------------------------------- what every call keeps

  lemma RecordedPersists(es: seq<Entry>, e: Entry, a: Uuid, g: Grant)
    requires PreparationRecorded(es, a, g)
    ensures PreparationRecorded(es + [e], a, g)
  {
    var i :| 0 <= i < |es| && es[i].action == a && es[i].sequence == g.sequence
             && es[i].transition.DispatchPrepared? && es[i].transition.preparation.receiptRef == g.receiptRef;
    assert (es + [e])[i] == es[i];
  }

  lemma StillPreparedPersists(j: State, a: Uuid, t: Transition, b: Uuid, g: Grant)
    requires StillPrepared(j, b, g) && a != b
    ensures StillPrepared(Appended(j, a, t), b, g)
  {
    var e := Entry(j.nextSequence, a, t);
    RecoveryAppend(j.entries, e, b);
    RecordedPersists(j.entries, e, b, g);
  }

  lemma NoAuthorityPersists(j: State, a: Uuid, t: Transition, b: Uuid)
    requires Allowed(j.entries, a, t, Append) && NoDispatchAuthority(j, b)
    ensures NoDispatchAuthority(Appended(j, a, t), b)
  {
    RecoveryAppend(j.entries, Entry(j.nextSequence, a, t), b);
    TransitionsAdvance(j.entries, a, t, Append);
  }

  /**
   * Recording keeps every grant honest. Only a receipt can be accepted for an
   * action in the prepared state, so only receipts need the caller to have
   * used the grant up first.
   */
  lemma RecordKeepsValid(j: State, a: Uuid, t: Transition, durable: bool, mode: Mode)
    requires Consistent(j, mode)
    requires t.DispatchLinearized? || t.PostconditionRecorded? ==> a !in j.prepared && a !in j.execution
    ensures Consistent(Record(j, a, t, durable).0, mode)
  {
    if Allowed(j.entries, a, t, Append) && durable {
      var j' := Appended(j, a, t);
      HistoryAppend(j.entries, Entry(j.nextSequence, a, t), mode);
      forall b | b in j.prepared ensures StillPrepared(j', b, j.prepared[b]) {
        StillPreparedPersists(j, a, t, b, j.prepared[b]);
      }
      forall b | b in j.execution ensures StillPrepared(j', b, j.execution[b]) {
        StillPreparedPersists(j, a, t, b, j.execution[b]);
      }
      forall b | b in j.observation ensures NoDispatchAuthority(j', b) {
        NoAuthorityPersists(j, a, t, b);
      }
    }
  }

  lemma PrepareKeepsValid(j: State, a: Uuid, p: PreparationReceipt, durable: bool, minted: Uuid, mode: Mode)
    requires Consistent(j, mode)
    ensures Consistent(RecordPrepared(j, a, p, durable, minted).0, mode)
  {
    var t := DispatchPrepared(p);
    RecordKeepsValid(j, a, t, durable, mode);
    if Allowed(j.entries, a, t, Append) && durable {
      var e := Entry(j.nextSequence, a, t);
      RecoveryAppend(j.entries, e, a);
      assert (j.entries + [e])[|j.entries|] == e;
    }
  }

  lemma BeginKeepsValid(j: State, c: Capability, minted: Uuid, mode: Mode)
    requires Consistent(j, mode)
    ensures Consistent(BeginDispatch(j, c, minted).0, mode)
  {
    var j' := BeginDispatch(j, c, minted).0;
    assert j'.entries == j.entries;
    forall b | b in j'.execution ensures StillPrepared(j', b, j'.execution[b]) {
      if b == c.action && b !in j.execution {
        assert StillPrepared(j, b, c.grant);
      }
    }
  }

  lemma LinearizeKeepsValid(j: State, p: Permit, result: DispatchResult, durable: bool, minted: Uuid, mode: Mode)
    requires Consistent(j, mode)
    ensures Consistent(Linearize(j, p, result, durable, minted).0, mode)
  {
    if Honours(j, p) {
      RecordKeepsValid(j.(execution := j.execution - {p.action}), p.action,
                       DispatchLinearized(minted, result), durable, mode);
    }
  }

  lemma {:induction false} AbandonKeepsValid(j: State, p: Permit, mode: Mode)
    requires Consistent(j, mode)
    ensures Consistent(AbandonDispatch(j, p).0, mode)
  {
  }

  lemma {:induction false} BeginObservationKeepsValid(j: State, a: Uuid, minted: Uuid, mode: Mode)
    requires Consistent(j, mode)
    ensures Consistent(BeginObservation(j, a, minted).0, mode)
  {
  }

  lemma {:induction false} ObservationKeepsValid(j: State, p: ObservationPermit, snap: Snapshot, mode: Mode)
    requires Consistent(j, mode)
    ensures Consistent(AbandonObservation(j, p).0, mode)
    ensures Consistent(CompleteObservation(j, p, snap).0, mode)
  {
  }

  /** A reopened journal has no grant to keep honest. */
  lemma {:induction false} ReopenKeepsValid(j: State, minted: Uuid, mode: Mode)
    requires History(j.entries, mode)
    ensures Consistent(Reopen(j, minted), mode)
  {
  }

  /**
   * A live token is always honoured: an unspent capability of this process
   * turns into a permit, and an unspent permit into a receipt unless the
   * append itself fails.
   */
  lemma LiveTokensAreHonoured(j: State, c: Capability, p: Permit, result: DispatchResult, minted: Uuid)
    requires Valid(j)
    ensures c.instance == j.instance && c.action in j.prepared && j.prepared[c.action] == c.grant ==>
              BeginDispatch(j, c, minted).1.Some?
    ensures Honours(j, p) ==> Linearize(j, p, result, true, minted).1
  {
  }

  /** A capability or permit is good for one call and for one journal instance only. */
  lemma TokensAreOneShot(j: State, c: Capability, p: Permit, result: DispatchResult, durable: bool,
                         m: Uuid, m': Uuid)
    requires Valid(j)
    ensures BeginDispatch(BeginDispatch(j, c, m).0, c, m').1.None?
    ensures !Linearize(Linearize(j, p, result, durable, m).0, p, result, durable, m').1
    ensures m != c.instance ==> BeginDispatch(Reopen(j, m), c, m').1.None?
    ensures m != p.instance ==> !Linearize(Reopen(j, m), p, result, durable, m').1
  {
  }
}
