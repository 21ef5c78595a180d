/**
 * The journal as the mutable object it is: entries, next sequence and three
 * maps of live grants behind one lock. Every method is a critical section.
 */
module JournalObject {
  import opened Common
  import opened Journal
  import A = JournalApi

  /** `recovery_state_for`: replay the entries of one action, oldest first. */
  method RecoveryStateFor(entries: seq<Entry>, a: Uuid) returns (state: Option<RecoveryState>)
    ensures state == RecoveryOf(entries, a)
  {
    state := None;
    for i := 0 to |entries|
      invariant state == RecoveryOf(entries[..i], a)
    {
      assert entries[..i + 1] == entries[..i] + [entries[i]];
      RecoveryAppend(entries[..i], entries[i], a);
      if entries[i].action == a {
        state := Some(StateAfter(entries[i].transition));
      }
    }
    assert entries[..|entries|] == entries;
  }

  /** `admitted_envelope_for` */
  method AdmittedEnvelopeFor(entries: seq<Entry>, a: Uuid) returns (found: Option<Envelope>)
    ensures found == AdmittedEnvelope(entries, a)
  {
    for i := 0 to |entries|
      invariant AdmittedEnvelope(entries, a) == AdmittedEnvelope(entries[i..], a)
    {
      assert entries[i..][1..] == entries[i + 1..];
      if entries[i].action == a && entries[i].transition.IntentAdmitted? {
        return Some(entries[i].transition.envelope);
      }
    }
    return None;
  }

  /** `postcondition_observation_cause_for`: newest first. */
  method CauseFor(entries: seq<Entry>, a: Uuid) returns (found: Option<Cause>)
    ensures found == CauseOf(entries, a)
  {
    assert entries[..|entries|] == entries;
    for i := |entries| downto 0
      invariant CauseOf(entries, a) == CauseOf(entries[..i], a)
    {
      assert entries[..i + 1][..i] == entries[..i];
      var e := entries[i];
      if e.action == a {
        match e.transition {
          case DispatchLinearized(ref, _) => return Some(AfterLinearized(e.sequence, ref));
          case DispatchPrepared(p) => return Some(AfterPrepared(e.sequence, p.receiptRef));
          case _ =>
        }
      }
    }
    return None;
  }

  /** `durable_preparation_matches` */
  method DurablePreparationMatches(entries: seq<Entry>, a: Uuid, sequence: nat, receiptRef: string)
    returns (found: bool)
    ensures forall token :: found == A.PreparationRecorded(entries, a, A.Grant(token, sequence, receiptRef))
  {
    for i := 0 to |entries|
      invariant forall k | 0 <= k < i ::
                  !(entries[k].action == a && entries[k].sequence == sequence && entries[k].transition.DispatchPrepared?
                    && entries[k].transition.preparation.receiptRef == receiptRef)
    {
      var e := entries[i];
      if e.action == a && e.sequence == sequence && e.transition.DispatchPrepared?
         && e.transition.preparation.receiptRef == receiptRef {
        return true;
      }
    }
    return false;
  }

  class ConsequentialJournal {
    const instance: Uuid
    var nextSequence: nat
    var entries: seq<Entry>
    var livePrepared: map<Uuid, A.Grant>
    var liveExecution: map<Uuid, A.Grant>
    var liveObservation: map<Uuid, A.ObservationGrant>

    /** The value the protocol model reasons about. */
    function State(): A.State
      reads this
    {
      A.State(instance, nextSequence, entries, livePrepared, liveExecution, liveObservation)
    }

    /** Every entry was valid where it stands, and every live grant is that of an action still durably prepared. */
    ghost predicate Valid()
      reads this
    {
      A.Consistent(State(), Replay)
    }

    /** Opening over recovered entries restores no grant. */
    constructor (recovered: seq<Entry>, minted: Uuid)
      requires History(recovered, Replay)
      ensures Valid() && entries == recovered && instance == minted
      ensures livePrepared == map[] && liveExecution == map[] && liveObservation == map[]
      ensures forall j: A.State | j.entries == recovered :: State() == A.Reopen(j, minted)
    {
      instance := minted;
      entries := recovered;
      nextSequence := |recovered| + 1;
      livePrepared, liveExecution, liveObservation := map[], map[], map[];
      new;
      A.ReopenKeepsValid(A.State(0, 0, recovered, map[], map[], map[]), minted, Replay);
    }

    /** `append_validated_locked`: nothing changes unless the transition is valid and the append durable. */
    method AppendValidated(a: Uuid, t: Transition, durable: bool) returns (ok: bool)
      requires Valid()
      requires (t.DispatchLinearized? || t.PostconditionRecorded? ==> a !in livePrepared && a !in liveExecution)
      modifies this
      ensures (State(), ok) == A.Record(old(State()), a, t, durable)
      ensures Valid() && (ok <==> durable && Allowed(old(entries), a, t, Append))
      ensures ok ==> entries == old(entries) + [Entry(|old(entries)| + 1, a, t)]
      ensures ok ==> RecoveryOf(entries, a) == Some(StateAfter(t))
      ensures !ok ==> entries == old(entries)
      ensures livePrepared == old(livePrepared) && liveExecution == old(liveExecution)
      ensures liveObservation == old(liveObservation)
    {
      A.RecordKeepsValid(State(), a, t, durable, Replay);
      RecoveryAppend(entries, Entry(nextSequence, a, t), a);
      ok := Allowed(entries, a, t, Append) && durable;
      if ok {
        entries := entries + [Entry(nextSequence, a, t)];
        nextSequence := nextSequence + 1;
      }
    }

    /** `record_dispatch_prepared`: the one place a capability is minted, and it is good at once. */
    method RecordDispatchPrepared(a: Uuid, p: PreparationReceipt, durable: bool, minted: Uuid)
      returns (capability: Option<A.Capability>)
      requires Valid()
      modifies this
      ensures (State(), capability) == A.RecordPrepared(old(State()), a, p, durable, minted)
      ensures Valid() && (capability.Some? <==> durable && Allowed(old(entries), a, DispatchPrepared(p), Append))
      ensures capability.Some? ==>
                && Redeemable(capability.value) && capability.value.action == a && a !in old(livePrepared)
                && entries == old(entries) + [Entry(|old(entries)| + 1, a, DispatchPrepared(p))]
      ensures capability.None? ==> State() == old(State())
    {
      A.PrepareKeepsValid(State(), a, p, durable, minted, Replay);
      var sequence := nextSequence;
      var ok := AppendValidated(a, DispatchPrepared(p), durable);
      if !ok { return None; }
      var grant := A.Grant(minted, sequence, p.receiptRef);
      livePrepared := livePrepared[a := grant];
      return Some(A.Capability(instance, a, grant));
    }

    /** The capability is this journal's and has not been used. */
    predicate Redeemable(c: A.Capability)
      reads this
    {
      c.instance == instance && c.action in livePrepared && livePrepared[c.action] == c.grant
    }

    predicate Executable(p: A.Permit)
      reads this
    {
      p.instance == instance && p.action in liveExecution && liveExecution[p.action] == p.grant
    }

    predicate Observing(p: A.ObservationPermit)
      reads this
    {
      p.instance == instance && p.action in liveObservation && liveObservation[p.action] == p.grant
    }

    /**
     * `begin_dispatch`: consume the capability first, then look at the durable
     * state. A capability not yet used always becomes a permit; one used, or of
     * another instance, never does.
     */
    method BeginDispatch(c: A.Capability, minted: Uuid) returns (permit: Option<A.Permit>)
      requires Valid()
      modifies this
      ensures (State(), permit) == A.BeginDispatch(old(State()), c, minted)
      ensures Valid() && entries == old(entries) && !Redeemable(c)
      ensures permit.Some? <==> old(Redeemable(c))
      ensures permit.Some? ==>
                && Executable(permit.value)
                && permit.value == A.Permit(instance, c.action, A.Grant(minted, c.grant.sequence, c.grant.receiptRef))
      ensures permit.None? ==> State() == old(State())
    {
      A.BeginKeepsValid(State(), c, minted, Replay);
      if c.instance != instance || c.action !in livePrepared || livePrepared[c.action] != c.grant {
        return None;
      }
      livePrepared := livePrepared - {c.action};
      var current := RecoveryStateFor(entries, c.action);
      if current != Some(Prepared) { return None; }
      var matched := DurablePreparationMatches(entries, c.action, c.grant.sequence, c.grant.receiptRef);
      assert c.grant == A.Grant(c.grant.token, c.grant.sequence, c.grant.receiptRef);
      if !matched { return None; }
      var grant := A.Grant(minted, c.grant.sequence, c.grant.receiptRef);
      liveExecution := liveExecution[c.action := grant];
      return Some(A.Permit(instance, c.action, grant));
    }

    /** `abandon_dispatch_execution`: gives a live permit up without an entry. */
    method AbandonDispatchExecution(p: A.Permit) returns (ok: bool)
      requires Valid()
      modifies this
      ensures (State(), ok) == A.AbandonDispatch(old(State()), p)
      ensures Valid() && entries == old(entries) && !Executable(p) && (ok <==> old(Executable(p)))
      ensures !ok ==> State() == old(State())
    {
      A.AbandonKeepsValid(State(), p, Replay);
      if p.instance != instance || p.action !in liveExecution || liveExecution[p.action] != p.grant {
        return false;
      }
      liveExecution := liveExecution - {p.action};
      var current := RecoveryStateFor(entries, p.action);
      if current != Some(Prepared) { return false; }
      ok := DurablePreparationMatches(entries, p.action, p.grant.sequence, p.grant.receiptRef);
      assert p.grant == A.Grant(p.grant.token, p.grant.sequence, p.grant.receiptRef);
    }

    /**
     * `record_dispatch_linearized`: the permit is gone whatever happens; the
     * receipt is written exactly when the permit was live and the append durable.
     */
    method RecordDispatchLinearized(p: A.Permit, result: DispatchResult, durable: bool, minted: Uuid) returns (ok: bool)
      requires Valid()
      modifies this
      ensures (State(), ok) == A.Linearize(old(State()), p, result, durable, minted)
      ensures Valid() && !Executable(p) && (ok <==> durable && old(Executable(p)))
      ensures ok ==> entries == old(entries) + [Entry(|old(entries)| + 1, p.action, DispatchLinearized(minted, result))]
                     && RecoveryOf(entries, p.action)
                        == Some(if MayHaveDispatched(result) then PossiblyDispatched else KnownNotDispatched)
      ensures !ok ==> entries == old(entries)
    {
      A.LinearizeKeepsValid(State(), p, result, durable, minted, Replay);
      if p.instance != instance || p.action !in liveExecution || liveExecution[p.action] != p.grant {
        return false;
      }
      A.AbandonKeepsValid(State(), p, Replay);
      liveExecution := liveExecution - {p.action};
      var current := RecoveryStateFor(entries, p.action);
      if current != Some(Prepared) { return false; }
      var matched := DurablePreparationMatches(entries, p.action, p.grant.sequence, p.grant.receiptRef);
      assert p.grant == A.Grant(p.grant.token, p.grant.sequence, p.grant.receiptRef);
      if !matched { return false; }
      ok := AppendValidated(p.action, DispatchLinearized(minted, result), durable);
    }

    /**
     * `begin_postcondition_observation`: only once no dispatch authority is left, and bound to the
     * admission and its cause.
     */
    method BeginPostconditionObservation(a: Uuid, minted: Uuid) returns (permit: Option<A.ObservationPermit>)
      requires Valid()
      modifies this
      ensures (State(), permit) == A.BeginObservation(old(State()), a, minted)
      ensures Valid() && entries == old(entries) && livePrepared == old(livePrepared)
      ensures liveExecution == old(liveExecution)
      ensures permit.Some? <==>
                && a !in livePrepared && a !in liveExecution && a !in old(liveObservation)
                && RecoveryOf(entries, a) in {Some(Prepared), Some(PossiblyDispatched), Some(OutcomeObservedUnverified)}
                && AdmittedEnvelope(entries, a).Some? && CauseOf(entries, a).Some?
      ensures permit.Some? ==>
                && Observing(permit.value) && permit.value.action == a && A.NoDispatchAuthority(State(), a)
                && var g, env := permit.value.grant, AdmittedEnvelope(entries, a).value;
                && (g.token, g.session, g.provider, g.target) == (minted, env.session, env.provider, env.target)
                && CauseOf(entries, a) == Some(g.cause)
                && g.cut == PostDispatchCut(instance, a, g.cause.sequence, minted)
      ensures permit.Some? ==> liveObservation == old(liveObservation)[a := permit.value.grant]
      ensures permit.None? ==> State() == old(State())
    {
      A.BeginObservationKeepsValid(State(), a, minted, Replay);
      var current := RecoveryStateFor(entries, a);
      if a in livePrepared || a in liveExecution || a in liveObservation { return None; }
      if !Observable(current) { return None; }
      var envelope := AdmittedEnvelopeFor(entries, a);
      if envelope.None? { return None; }
      var cause := CauseFor(entries, a);
      if cause.None? { return None; }
      var grant := A.ObservationGrant(minted, envelope.value.session, envelope.value.provider, envelope.value.target,
                                      PostDispatchCut(instance, a, cause.value.sequence, minted), cause.value);
      liveObservation := liveObservation[a := grant];
      return Some(A.ObservationPermit(instance, a, grant));
    }

    /** `abandon_postcondition_observation`: closes the observation it was given, and no other. */
    method AbandonPostconditionObservation(p: A.ObservationPermit) returns (ok: bool)
      requires Valid()
      modifies this
      ensures (State(), ok) == A.AbandonObservation(old(State()), p)
      ensures Valid() && entries == old(entries) && !Observing(p) && (ok <==> old(Observing(p)))
      ensures forall q: A.ObservationPermit | q.action != p.action :: Observing(q) == old(Observing(q))
    {
      A.ObservationKeepsValid(State(), p, A.Snapshot("", "", "", PreconditionCut("")), Replay);
      ok := p.instance == instance && p.action in liveObservation && liveObservation[p.action] == p.grant;
      if ok { liveObservation := liveObservation - {p.action}; }
    }

    /**
     * `complete_postcondition_observation`: consumed before the snapshot is
     * looked at, so an observation yields at most one receipt, and only for a
     * snapshot of its own lineage and cut.
     */
    method CompletePostconditionObservation(p: A.ObservationPermit, s: A.Snapshot)
      returns (receipt: Option<A.ObservationReceipt>)
      requires Valid()
      modifies this
      ensures (State(), receipt) == A.CompleteObservation(old(State()), p, s)
      ensures Valid() && entries == old(entries) && !Observing(p)
      ensures receipt.Some? <==>
                && old(Observing(p)) && (s.provider, s.target, s.cut) == (p.grant.provider, p.grant.target, p.grant.cut)
                && exists i :: 0 <= i < |s.receiptId| && !IsWhitespace(s.receiptId[i])
      ensures receipt.Some? ==>
                && receipt.value == A.ObservationReceipt(p.action, p.grant.session, p.grant.provider, p.grant.target,
                                                         p.grant.cut, s.receiptId, p.grant.cause)
                && A.NoDispatchAuthority(State(), p.action)
      ensures forall q: A.ObservationPermit | q.action != p.action :: Observing(q) == old(Observing(q))
    {
      A.ObservationKeepsValid(State(), p, s, Replay);
      if p.instance != instance || p.action !in liveObservation || liveObservation[p.action] != p.grant {
        return None;
      }
      assert A.NoDispatchAuthority(State(), p.action);
      liveObservation := liveObservation - {p.action};
      if s.provider != p.grant.provider || s.target != p.grant.target || s.cut != p.grant.cut || Blank(s.receiptId) {
        return None;
      }
      return Some(A.ObservationReceipt(p.action, p.grant.session, p.grant.provider, p.grant.target,
                                       s.cut, s.receiptId, p.grant.cause));
    }

    /**
     * `record_action_postcondition_receipt`: identity and order come from the
     * journal. Its caller holds an observation receipt, so the action has no
     * dispatch authority left. A receipt accepted as expected proves every
     * admitted postcondition.
     */
    method RecordPostconditionReceipt(d: ReceiptDraft, durable: bool) returns (ok: bool)
      requires Valid() && A.NoDispatchAuthority(State(), d.action)
      modifies this
      ensures (State(), ok) == A.RecordPostcondition(old(State()), d, durable)
      ensures Valid() && A.NoDispatchAuthority(State(), d.action)
      ensures !ok ==> State() == old(State())
      ensures var n := |old(entries)| + 1;
              var t := PostconditionRecorded(Receipt(d, (d.action, n), n));
              && (ok <==> durable && Allowed(old(entries), d.action, t, Append))
              && (ok ==> entries == old(entries) + [Entry(n, d.action, t)])
      ensures ok && d.verdict == VerifiedExpected ==>
                && ProvesPostconditions(entries, d.action, |old(entries)|)
                && RecoveryOf(entries, d.action) == Some(VerifiedUncommitted)
    {
      ghost var e := Entry(nextSequence, d.action,
                           PostconditionRecorded(Receipt(d, (d.action, nextSequence), nextSequence)));
      ghost var before := entries;
      RecoveryAppend(before, e, d.action);
      ok := AppendValidated(d.action, PostconditionRecorded(Receipt(d, (d.action, nextSequence), nextSequence)),
                            durable);
      if ok {
        TransitionsAdvance(before, d.action, e.transition, Append);
        if d.verdict == VerifiedExpected { AcceptedReceiptProves(before, e); }
      }
    }
  }
}
