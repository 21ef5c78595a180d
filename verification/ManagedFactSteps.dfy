/** Every step keeps the journal valid and adds only facts that hold. */
module ManagedFactSteps {
  import opened Common
  import opened ManagedPayload
  import opened Managed
  import opened ManagedAuthority
  import opened ManagedFacts
  import J = Journal
  import A = JournalApi

  // ---------------------------------------------------------------- the journal

  lemma {:induction false} RecordEvolves(j: A.State, a: Uuid, t: J.Transition, durable: bool)
    ensures JournalEvolves(j, A.Record(j, a, t, durable).0)
    ensures forall e | e in A.Record(j, a, t, durable).0.entries && e !in j.entries ::
              e.transition == t && e.action == a
  {
    if J.Allowed(j.entries, a, t, J.Append) && durable {
      var j' := A.Appended(j, a, t);
      var e := J.Entry(j.nextSequence, a, t);
      forall b: Uuid ensures IsCommitted(j, b) ==> IsCommitted(j', b) {
        J.RecoveryAppend(j.entries, e, b);
        J.TransitionsAdvance(j.entries, a, t, J.Append);
      }
      forall b: Uuid | A.NoDispatchAuthority(j, b) ensures A.NoDispatchAuthority(j', b) {
        A.NoAuthorityPersists(j, a, t, b);
      }
      forall b: Uuid | J.AdmittedEnvelope(j.entries, b).Some?
        ensures J.AdmittedEnvelope(j'.entries, b) == J.AdmittedEnvelope(j.entries, b)
      {
        J.EnvelopeAppend(j.entries, e, b);
      }
    }
  }

  lemma {:induction false} PreparedEvolves(j: A.State, a: Uuid, p: J.PreparationReceipt, durable: bool, minted: Uuid)
    ensures JournalEvolves(j, A.RecordPrepared(j, a, p, durable, minted).0)
    ensures forall e | e in A.RecordPrepared(j, a, p, durable, minted).0.entries && e !in j.entries ::
              e.action == a && e.transition == J.DispatchPrepared(p)
  {
    RecordEvolves(j, a, J.DispatchPrepared(p), durable);
    var j1 := A.Record(j, a, J.DispatchPrepared(p), durable).0;
    var j' := A.RecordPrepared(j, a, p, durable, minted).0;
    assert j'.entries == j1.entries;
    forall b: Uuid | A.NoDispatchAuthority(j, b) ensures A.NoDispatchAuthority(j', b) {
      assert A.NoDispatchAuthority(j1, b);
    }
    forall b: Uuid | IsCommitted(j, b) ensures IsCommitted(j', b) {
      assert IsCommitted(j1, b);
    }
  }

  lemma {:induction false} LinearizeEvolves(j: A.State, p: A.Permit, r: J.DispatchResult, durable: bool, minted: Uuid)
    ensures JournalEvolves(j, A.Linearize(j, p, r, durable, minted).0)
    ensures forall e | e in A.Linearize(j, p, r, durable, minted).0.entries && e !in j.entries ::
              e.transition == J.DispatchLinearized(minted, r)
  {
    var mid := j.(execution := j.execution - {p.action});
    RecordEvolves(mid, p.action, J.DispatchLinearized(minted, r), durable);
    forall b: Uuid | A.NoDispatchAuthority(j, b) ensures A.NoDispatchAuthority(mid, b) {}
    forall b: Uuid | IsCommitted(j, b) ensures IsCommitted(mid, b) {}
  }

  lemma {:induction false} ObservationEvolves(j: A.State, a: Uuid, p: A.ObservationPermit, snap: A.Snapshot,
                                              minted: Uuid)
    ensures JournalEvolves(j, A.BeginObservation(j, a, minted).0)
    ensures A.BeginObservation(j, a, minted).0.entries == j.entries
    ensures JournalEvolves(j, A.AbandonObservation(j, p).0) && A.AbandonObservation(j, p).0.entries == j.entries
    ensures JournalEvolves(j, A.CompleteObservation(j, p, snap).0)
    ensures A.CompleteObservation(j, p, snap).0.entries == j.entries
  {
  }

  lemma {:induction false} SameJournal(j: A.State)
    ensures JournalEvolves(j, j)
  {
  }

  // ------------------------------------------------------------- ordinary steps

  ghost predicate Shrinks<V>(m: Table<V>, m': Table<V>) {
    forall a | a in m'.m :: a in m.m && m'.m[a] == m.m[a]
  }

  /** Records are dropped, or have their status set to something that holds. */
  ghost predicate RecordsStep(s: Sys, s': Sys) {
    forall a | a in s'.records.m ::
      && a in s.records.m
      && (s'.records.m[a] == s.records.m[a] || StatusSet(s, a, s.records.m[a], s'.records.m[a]))
  }

  ghost predicate StatusSet(s: Sys, a: Uuid, r: Record, r': Record) {
    && r'.session == r.session && r'.authority == r.authority && r'.expected == r.expected
    && (r'.status.VerifiedExpected? ==> IsCommitted(s.journal, a))
  }

  ghost predicate PlainEntries(j: A.State, j': A.State) {
    && JournalEvolves(j, j')
    && (forall e | e in j'.entries && e !in j.entries ::
          !e.transition.PostconditionRecorded? && !e.transition.AuthorizationRecorded?
          && !e.transition.DispatchPrepared?)
  }

  /** What is new was written for an action whose confirmation was taken on its surface. */
  ghost predicate ApprovedEntries(s: Sys, j': A.State) {
    && JournalEvolves(s.journal, j')
    && (forall e | e in j'.entries && e !in s.journal.entries ::
          !e.transition.PostconditionRecorded? && Approved(s, e.action))
  }

  ghost predicate EntriesOrdinary(s: Sys, j': A.State) { PlainEntries(s.journal, j') || ApprovedEntries(s, j') }

  lemma {:induction false} BeginIsPlain(j: A.State, c: A.Capability, minted: Uuid)
    ensures PlainEntries(j, A.BeginDispatch(j, c, minted).0)
  {
  }

  lemma {:induction false} AbandonIsPlain(j: A.State, p: A.Permit)
    ensures PlainEntries(j, A.AbandonDispatch(j, p).0)
  {
  }

  lemma {:induction false} ObservingIsPlain(j: A.State, a: Uuid, minted: Uuid)
    ensures PlainEntries(j, A.BeginObservation(j, a, minted).0)
  {
  }

  ghost predicate TaskTo(codec: Codec, s: Sys, s': Sys, tid: nat) {
    if tid in s'.tasks.m
    then s'.tasks == s.tasks.With(tid, s'.tasks.m[tid]) && TaskOk(codec, s, s'.tasks.m[tid])
    else s'.tasks == s.tasks.Without({tid})
  }

  lemma {:induction false} RecordCarries(codec: Codec, s: Sys, s': Sys, a: Uuid)
    requires Facts(codec, s) && Evolves(s, s') && RecordsStep(s, s') && a in s'.records.m
    ensures RecordOk(s', a, s'.records.m[a])
  {
    assert RecordOk(s, a, s.records.m[a]);
  }

  lemma {:induction false} TaskToCarries(codec: Codec, s: Sys, s': Sys, tid: nat, t: nat)
    requires Facts(codec, s) && Evolves(s, s') && tid in s.tasks.m && TaskTo(codec, s, s', tid) && t in s'.tasks.m
    ensures TaskOk(codec, s', s'.tasks.m[t])
  {
    TaskCarries(codec, s, s', s'.tasks.m[t]);
  }

  lemma {:induction false} EntriesCarry(s: Sys, s': Sys)
    requires Evolves(s, s') && EntriesOrdinary(s, s'.journal)
    ensures forall e | e in s'.journal.entries && e !in s.journal.entries :: EntryOk(s', e)
  {
    hide JournalEvolves;
  }

  lemma {:induction false} OrdinaryIsNew(codec: Codec, s: Sys, s': Sys, tid: nat)
    requires Facts(codec, s) && Evolves(s, s') && tid in s.tasks.m && TaskTo(codec, s, s', tid)
    requires s'.book == s.book && s'.sent == s.sent && s'.log == s.log
    requires s'.bindings == s.bindings && s'.queue == s.queue && Shrinks(s.pending, s'.pending)
    requires RecordsStep(s, s') && EntriesOrdinary(s, s'.journal)
    ensures NewOk(codec, s, s')
  {
    hide Facts, Evolves, TaskTo, RecordsStep, TaskOk, RecordOk, EntryOk, EntriesOrdinary;
    EntriesCarry(s, s');
    forall a | a in s'.records.m ensures RecordOk(s', a, s'.records.m[a]) { RecordCarries(codec, s, s', a); }
    forall t | t in s'.tasks.m ensures TaskOk(codec, s', s'.tasks.m[t]) { TaskToCarries(codec, s, s', tid, t); }
  }

  /** A step that books, sends, logs and binds nothing new. */
  lemma {:induction false} Ordinary(codec: Codec, s: Sys, s': Sys, tid: nat)
    requires Facts(codec, s) && tid in s.tasks.m && TaskTo(codec, s, s', tid)
    requires s.minted <= s'.minted && s'.book == s.book && s'.sent == s.sent && s'.log == s.log && s'.seen == s.seen
    requires s'.bindings == s.bindings && s'.queue == s.queue && Shrinks(s.pending, s'.pending)
    requires RecordsStep(s, s') && EntriesOrdinary(s, s'.journal)
    ensures Facts(codec, s')
  {
    hide Facts, TaskTo, NewOk, Shrinks, RecordsStep, JournalEvolves;
    assert Evolves(s, s');
    OrdinaryIsNew(codec, s, s', tid);
    FactsCarry(codec, s, s');
  }

  /** A step that leaves the journal alone as well. */
  lemma {:induction false} Quietly(codec: Codec, s: Sys, s': Sys, tid: nat)
    requires Facts(codec, s) && tid in s.tasks.m && TaskTo(codec, s, s', tid)
    requires s.minted <= s'.minted && s'.book == s.book && s'.sent == s.sent && s'.log == s.log && s'.seen == s.seen
    requires s'.bindings == s.bindings && s'.queue == s.queue && Shrinks(s.pending, s'.pending)
    requires Shrinks(s.records, s'.records) && s'.journal == s.journal
    ensures Facts(codec, s')
  {
    hide Facts;
    SameJournal(s.journal);
    Ordinary(codec, s, s', tid);
  }

  /** A handler has looked at the surface, or taken a confirmation, before it does anything else. */
  lemma {:induction false} SeenFacts(codec: Codec, s: Sys, x: Sight)
    requires Facts(codec, s)
    ensures Facts(codec, s.(seen := s.seen + [x]))
  {
    hide Facts;
    SameJournal(s.journal);
    assert Evolves(s, s.(seen := s.seen + [x]));
    assert NewOk(codec, s, s.(seen := s.seen + [x]));
    FactsCarry(codec, s, s.(seen := s.seen + [x]));
  }

  // ------------------------------------------------------------- plan, confirm

  lemma {:induction false} PlanStartFacts(codec: Codec, s: Sys, tid: nat, c: Choice)
    requires Facts(codec, s) && tid in s.tasks.m && s.tasks.m[tid].Bare? && IsPlanPc(s.tasks.m[tid].pc)
    requires !s.tasks.m[tid].pc.PlanBind?
    ensures Facts(codec, StepPlanStart(codec, s, tid, s.tasks.m[tid].pc, c))
  {
    hide Facts;
    Quietly(codec, s, StepPlanStart(codec, s, tid, s.tasks.m[tid].pc, c), tid);
  }

  /** What was bound at plan time is a fresh id with its own payload. */
  lemma {:induction false} PlanBindFacts(codec: Codec, s: Sys, tid: nat, c: Choice)
    requires Inv(s) && Facts(codec, s) && tid in s.tasks.m && s.tasks.m[tid].Bare? && s.tasks.m[tid].pc.PlanBind?
    ensures Facts(codec, StepPlanStart(codec, s, tid, s.tasks.m[tid].pc, c))
  {
    hide Facts, Inv;
    var s' := StepPlanStart(codec, s, tid, s.tasks.m[tid].pc, c);
    FreshIsUnbooked(s);
    if tid !in s'.tasks.m {
      Quietly(codec, s, s', tid);
    } else {
      PlanBoundFacts(codec, s, s', tid);
    }
  }

  lemma {:induction false} PlanBoundFacts(codec: Codec, s: Sys, s': Sys, tid: nat)
    requires Facts(codec, s) && tid in s.tasks.m && tid in s'.tasks.m && s.minted !in s.book.m
    requires s'.minted == s.minted + 4 && s'.book.m.Keys == s.book.m.Keys + {s.minted}
    requires (forall a | a in s.book.m :: s'.book.m[a] == s.book.m[a]) && BookingOk(s'.book.m[s.minted])
    requires s'.tasks == s.tasks.With(tid, s'.tasks.m[tid]) && TaskOk(codec, s', s'.tasks.m[tid])
    requires s'.journal == s.journal && s'.bindings == s.bindings && s'.pending == s.pending
    requires s'.records == s.records && s'.queue == s.queue && s'.sent == s.sent && s'.log == s.log
    requires PlannedThere(s', s.minted) && forall x | x in s.seen :: x in s'.seen
    ensures Facts(codec, s')
  {
    SameJournal(s.journal);
    assert Evolves(s, s');
    assert NewOk(codec, s, s');
    FactsCarry(codec, s, s');
  }

  lemma {:induction false} PlanIntentFacts(codec: Codec, s: Sys, tid: nat, c: Choice)
    requires Facts(codec, s) && tid in s.tasks.m && s.tasks.m[tid].HoldingPlan? && s.tasks.m[tid].at.PlanIntent?
    ensures Facts(codec, StepPlan(s, tid, s.tasks.m[tid].plan, PlanIntent, c))
  {
    hide Facts;
    var p := s.tasks.m[tid].plan;
    var (j, ok) := A.Record(s.journal, p.action.id, J.IntentAdmitted(p.envelope), c.ok);
    TaskIsOk(codec, s, tid);
    if ok { AdmittedFacts(codec, s, tid, p, j); } else { Quietly(codec, s, Drop(s, tid, p.action.id), tid); }
  }

  /** The intent was recorded: from here on the journal answers for the envelope of the plan. */
  lemma {:induction false} AdmittedFacts(codec: Codec, s: Sys, tid: nat, p: Plan, j: A.State)
    requires Facts(codec, s) && tid in s.tasks.m && PlanBooked(s, p)
    requires A.Record(s.journal, p.action.id, J.IntentAdmitted(p.envelope), true) == (j, true)
    ensures Facts(codec, Become(s.(journal := j), tid, HoldingPlan(p, PlanOperation)))
  {
    hide Facts;
    RecordEvolves(s.journal, p.action.id, J.IntentAdmitted(p.envelope), true);
    J.FirstAdmission(s.journal.entries, J.Entry(s.journal.nextSequence, p.action.id, J.IntentAdmitted(p.envelope)));
    JournalFacts(codec, s, j);
    Quietly(codec, s.(journal := j), Become(s.(journal := j), tid, HoldingPlan(p, PlanOperation)), tid);
  }

  lemma {:induction false} PlanOperationFacts(codec: Codec, s: Sys, tid: nat, c: Choice)
    requires Facts(codec, s) && tid in s.tasks.m && s.tasks.m[tid].HoldingPlan? && s.tasks.m[tid].at.PlanOperation?
    ensures Facts(codec, StepPlan(s, tid, s.tasks.m[tid].plan, PlanOperation, c))
  {
    hide Facts;
    TaskIsOk(codec, s, tid);
    Quietly(codec, s, StepPlan(s, tid, s.tasks.m[tid].plan, PlanOperation, c), tid);
  }

  lemma {:induction false} PlanPayloadFacts(codec: Codec, s: Sys, tid: nat, c: Choice)
    requires Facts(codec, s) && tid in s.tasks.m && s.tasks.m[tid].HoldingPlan? && s.tasks.m[tid].at.PlanPayload?
    ensures Facts(codec, StepPlan(s, tid, s.tasks.m[tid].plan, PlanPayload, c))
  {
    hide Facts;
    var p := s.tasks.m[tid].plan;
    var s' := StepPlan(s, tid, p, PlanPayload, c);
    TaskIsOk(codec, s, tid);
    if s'.bindings == s.bindings {
      Quietly(codec, s, s', tid);
    } else {
      BoundFacts(codec, s, s', tid, p.action.id);
    }
  }

  lemma {:induction false} BoundFacts(codec: Codec, s: Sys, s': Sys, tid: nat, a: Uuid)
    requires Facts(codec, s) && tid in s.tasks.m && a !in s.bindings.m && a in s'.bindings.m
    requires s' == s.(bindings := s.bindings.With(a, s'.bindings.m[a]), tasks := s'.tasks)
    requires TaskTo(codec, s, s', tid) && BindingOk(s, a, s'.bindings.m[a])
    ensures Facts(codec, s')
  {
    hide Facts;
    var mid := s'.(bindings := s.bindings);
    Quietly(codec, s, mid, tid);
    SameJournal(s.journal);
    assert Evolves(mid, s');
    assert NewOk(codec, mid, s');
    FactsCarry(codec, mid, s');
  }

  lemma {:induction false} PlanInsertFacts(codec: Codec, s: Sys, tid: nat, c: Choice)
    requires Facts(codec, s) && tid in s.tasks.m && s.tasks.m[tid].HoldingPlan? && s.tasks.m[tid].at.PlanInsert?
    ensures Facts(codec, StepPlan(s, tid, s.tasks.m[tid].plan, PlanInsert, c))
  {
    hide Facts;
    var s' := StepPlan(s, tid, s.tasks.m[tid].plan, PlanInsert, c);
    TaskIsOk(codec, s, tid);
    SameJournal(s.journal);
    assert Evolves(s, s');
    assert NewOk(codec, s, s');
    FactsCarry(codec, s, s');
  }

  lemma {:induction false} ConsumeFacts(codec: Codec, s: Sys, tid: nat, c: Choice)
    requires Facts(codec, s) && tid in s.tasks.m && s.tasks.m[tid].Bare? && s.tasks.m[tid].pc.ConfirmConsume?
    ensures Facts(codec, StepConfirm(s, tid, s.tasks.m[tid].pc, c))
  {
    hide Facts;
    var pc := s.tasks.m[tid].pc;
    var s' := StepConfirm(s, tid, pc, c);
    if tid in s'.tasks.m {
      ConsumedFacts(codec, s, s', tid, pc.id);
    } else if s'.pending == s.pending {
      QuietFinish(codec, s, tid);
    } else {
      Quietly(codec, s, s', tid);
    }
  }

  lemma {:induction false} QuietFinish(codec: Codec, s: Sys, tid: nat)
    requires Facts(codec, s) && tid in s.tasks.m
    ensures Facts(codec, Finish(s, tid))
  {
    Quietly(codec, s, Finish(s, tid), tid);
  }

  lemma {:induction false} ConsumedFacts(codec: Codec, s: Sys, s': Sys, tid: nat, a: Uuid)
    requires Facts(codec, s) && tid in s.tasks.m && a in s.pending.m
    requires var p := s.pending.m[a];
             var s1 := s.(seen := s.seen + [ConfirmTook(a, p.action.session, p.confirmation, false)]);
             s' == Become(Move(s1.(pending := s.pending.Without({a})), a, InTask(tid, Planned)),
                          tid, HoldingPlan(p, ConfirmCheck))
    ensures Facts(codec, s')
  {
    hide Facts;
    var p := s.pending.m[a];
    var s1 := s.(seen := s.seen + [ConfirmTook(a, p.action.session, p.confirmation, false)]);
    SeenFacts(codec, s, ConfirmTook(a, p.action.session, p.confirmation, false));
    PendingIsOk(codec, s1, a);
    Quietly(codec, s1, s', tid);
  }

  lemma PendingIsOk(codec: Codec, s: Sys, a: Uuid)
    requires Facts(codec, s) && a in s.pending.m
    ensures PlanOk(s, s.pending.m[a]) && s.pending.m[a].action.id == a
  {
  }

  lemma {:induction false} ConfirmRecordFacts(codec: Codec, s: Sys, tid: nat, c: Choice)
    requires Facts(codec, s) && tid in s.tasks.m && s.tasks.m[tid].Bare? && s.tasks.m[tid].pc.ConfirmRecord?
    ensures Facts(codec, StepConfirm(s, tid, s.tasks.m[tid].pc, c))
  {
    hide Facts;
    var s' := StepConfirm(s, tid, s.tasks.m[tid].pc, c);
    TaskIsOk(codec, s, tid);
    SameJournal(s.journal);
    assert Evolves(s, s');
    assert NewOk(codec, s, s');
    FactsCarry(codec, s, s');
  }

  lemma {:induction false} SentFacts(codec: Codec, s: Sys, tid: nat, p: Plan)
    requires Facts(codec, s) && tid in s.tasks.m && ApprovedPlan(s, p)
    ensures Facts(codec, Finish(s.(queue := s.queue + [p.action], sent := s.sent + [p.action]), tid))
  {
    hide Facts;
    var s' := Finish(s.(queue := s.queue + [p.action], sent := s.sent + [p.action]), tid);
    SameJournal(s.journal);
    assert Evolves(s, s');
    assert NewOk(codec, s, s');
    FactsCarry(codec, s, s');
  }

  lemma {:induction false} ConfirmEnqueueFacts(codec: Codec, s: Sys, tid: nat, c: Choice)
    requires Facts(codec, s) && tid in s.tasks.m && s.tasks.m[tid].Bare? && s.tasks.m[tid].pc.ConfirmEnqueue?
    ensures Facts(codec, StepConfirm(s, tid, s.tasks.m[tid].pc, c))
  {
    hide Facts;
    var pc := s.tasks.m[tid].pc;
    TaskIsOk(codec, s, tid);
    if c.ok { SentFacts(codec, s, tid, pc.plan); } else { Quietly(codec, s, StepConfirm(s, tid, pc, c), tid); }
  }

  lemma {:induction false} RollbackFacts(codec: Codec, s: Sys, tid: nat, c: Choice)
    requires Facts(codec, s) && tid in s.tasks.m && s.tasks.m[tid].Bare?
    requires s.tasks.m[tid].pc.RollbackRecord? || s.tasks.m[tid].pc.RollbackTake? || s.tasks.m[tid].pc.RollbackEnd?
    ensures Facts(codec, StepConfirm(s, tid, s.tasks.m[tid].pc, c))
  {
    hide Facts;
    TaskIsOk(codec, s, tid);
    Quietly(codec, s, StepConfirm(s, tid, s.tasks.m[tid].pc, c), tid);
  }

  lemma {:induction false} ConfirmChecksFacts(codec: Codec, s: Sys, tid: nat, c: Choice)
    requires Facts(codec, s) && tid in s.tasks.m && s.tasks.m[tid].HoldingPlan?
    requires var at := s.tasks.m[tid].at; at.ConfirmCheck? || at.ConfirmPrune? || at.ConfirmCapacity?
    ensures Facts(codec, StepConfirmPlan(codec, s, tid, s.tasks.m[tid].plan, s.tasks.m[tid].at, c))
  {
    hide Facts;
    var t := s.tasks.m[tid];
    if t.at.ConfirmCheck? {
      var x := ConfirmSaw(t.plan.action.id, c.surface, c.lineage);
      SeenFacts(codec, s, x);
      TaskIsOk(codec, s.(seen := s.seen + [x]), tid);
      Quietly(codec, s.(seen := s.seen + [x]), StepConfirmPlan(codec, s, tid, t.plan, t.at, c), tid);
    } else {
      TaskIsOk(codec, s, tid);
      Quietly(codec, s, StepConfirmPlan(codec, s, tid, t.plan, t.at, c), tid);
    }
  }

  /** The payload that replaces the carrier is of the operation the plan was booked with. */
  lemma {:induction false} MaterializedOk(codec: Codec, s: Sys, p: Plan)
    requires Facts(codec, s) && PlanOk(s, p) && p.payload.Some?
    requires Materialize(codec, s.key, BindingFor(s, p.action.id), p.payload.value).Some?
    ensures PlanOk(s, p.(action := p.action.(kind :=
              Materialize(codec, s.key, BindingFor(s, p.action.id), p.payload.value).value), payload := None))
  {
    assert BindingOk(s, p.action.id, s.bindings.m[p.action.id]);
  }

  lemma {:induction false} MaterializeFacts(codec: Codec, s: Sys, tid: nat, c: Choice)
    requires Facts(codec, s) && tid in s.tasks.m && s.tasks.m[tid].HoldingPlan? && s.tasks.m[tid].at.ConfirmMaterialize?
    ensures Facts(codec, StepConfirmPlan(codec, s, tid, s.tasks.m[tid].plan, ConfirmMaterialize, c))
  {
    hide Facts;
    var p := s.tasks.m[tid].plan;
    TaskIsOk(codec, s, tid);
    if p.payload.Some? && Materialize(codec, s.key, BindingFor(s, p.action.id), p.payload.value).Some? {
      MaterializedOk(codec, s, p);
    }
    Quietly(codec, s, StepConfirmPlan(codec, s, tid, p, ConfirmMaterialize, c), tid);
  }

  lemma {:induction false} AuthorizeFacts(codec: Codec, s: Sys, tid: nat, c: Choice)
    requires Facts(codec, s) && tid in s.tasks.m && s.tasks.m[tid].HoldingPlan? && s.tasks.m[tid].at.ConfirmAuthorize?
    ensures Facts(codec, StepConfirmPlan(codec, s, tid, s.tasks.m[tid].plan, ConfirmAuthorize, c))
  {
    hide Facts;
    var p := s.tasks.m[tid].plan;
    TaskIsOk(codec, s, tid);
    RecordEvolves(s.journal, p.action.id, J.AuthorizationRecorded(p.envelope.authorizationRevision, true), c.ok);
    SameJournal(s.journal);
    Ordinary(codec, s, StepConfirmPlan(codec, s, tid, p, ConfirmAuthorize, c), tid);
  }

  lemma {:induction false} PrepareFacts(codec: Codec, s: Sys, tid: nat, c: Choice)
    requires Facts(codec, s) && tid in s.tasks.m && s.tasks.m[tid].HoldingPlan? && s.tasks.m[tid].at.ConfirmPrepare?
    ensures Facts(codec, StepConfirmPlan(codec, s, tid, s.tasks.m[tid].plan, s.tasks.m[tid].at, c))
  {
    hide Facts;
    var t := s.tasks.m[tid];
    var p := t.plan;
    TaskIsOk(codec, s, tid);
    var receipt := J.PreparationReceipt("dispatch-prepared", t.at.authorizationSequence, p.envelope.preconditionCut,
                                        p.envelope.provider, p.envelope.target);
    PreparedEvolves(s.journal, p.action.id, receipt, c.ok, s.minted);
    SameJournal(s.journal);
    Ordinary(codec, s, StepConfirmPlan(codec, s, tid, p, t.at, c), tid);
  }

  // ----------------------------------------------- release, capability, permit

  lemma {:induction false} ReleaseFacts(codec: Codec, s: Sys, tid: nat)
    requires Facts(codec, s) && tid in s.tasks.m && s.tasks.m[tid].Bare?
    requires s.tasks.m[tid].pc.ReleasePending? || s.tasks.m[tid].pc.ReleasePrepared?
    ensures Facts(codec, StepRelease(s, tid, s.tasks.m[tid].pc))
  {
    hide Facts;
    Quietly(codec, s, StepRelease(s, tid, s.tasks.m[tid].pc), tid);
  }

  lemma {:induction false} WithoutSessionShrinks(q: seq<QueuedAction>, session: Uuid)
    ensures forall x | x in WithoutSession(q, session) :: x in q
  {
    if q != [] { WithoutSessionShrinks(q[1..], session); }
  }

  lemma {:induction false} ReleaseQueueFacts(codec: Codec, s: Sys, tid: nat)
    requires Facts(codec, s) && tid in s.tasks.m && s.tasks.m[tid].Bare? && s.tasks.m[tid].pc.ReleaseQueue?
    ensures Facts(codec, StepRelease(s, tid, s.tasks.m[tid].pc))
  {
    hide Facts;
    var s' := StepRelease(s, tid, s.tasks.m[tid].pc);
    WithoutSessionShrinks(s.queue, s.tasks.m[tid].pc.session);
    SameJournal(s.journal);
    assert Evolves(s, s');
    assert NewOk(codec, s, s');
    FactsCarry(codec, s, s');
  }

  lemma {:induction false} DrainBeginFacts(codec: Codec, s: Sys, tid: nat, c: Choice)
    requires Facts(codec, s) && tid in s.tasks.m && s.tasks.m[tid].Draining? && s.tasks.m[tid].current.Beginning?
    ensures Facts(codec, StepDrain(s, tid, s.tasks.m[tid], c))
  {
    hide Facts, A.BeginDispatch, PlainEntries;
    var t := s.tasks.m[tid];
    BeginIsPlain(s.journal, t.current.capability, s.minted);
    Ordinary(codec, s, StepDrain(s, tid, t, c), tid);
  }

  lemma {:induction false} DrainFacts(codec: Codec, s: Sys, tid: nat, c: Choice)
    requires Facts(codec, s) && tid in s.tasks.m && s.tasks.m[tid].Draining?
    ensures Facts(codec, StepDrain(s, tid, s.tasks.m[tid], c))
  {
    hide Facts, JournalEvolves, A.Linearize;
    var t := s.tasks.m[tid];
    var s' := StepDrain(s, tid, t, c);
    match t.current
    case Beginning(_) => DrainBeginFacts(codec, s, tid, c);
    case Refusing(permit) =>
      LinearizeEvolves(s.journal, permit, J.NotDispatched, c.ok, s.minted);
      Ordinary(codec, s, s', tid);
    case Idle => DrainIdleFacts(codec, s, tid, c);
    case TakeExecuting => Quietly(codec, s, s', tid);
  }

  lemma {:induction false} DrainIdleFacts(codec: Codec, s: Sys, tid: nat, c: Choice)
    requires Facts(codec, s) && tid in s.tasks.m && s.tasks.m[tid].Draining? && s.tasks.m[tid].current.Idle?
    ensures Facts(codec, StepDrain(s, tid, s.tasks.m[tid], c))
  {
    hide Facts;
    var t := s.tasks.m[tid];
    var s' := StepDrain(s, tid, t, c);
    SameJournal(s.journal);
    if c.pick in t.permits {
      AbandonIsPlain(s.journal, t.permits[c.pick]);
    }
    if s' != s { Ordinary(codec, s, s', tid); }
  }

  lemma {:induction false} StashFacts(codec: Codec, s: Sys, tid: nat)
    requires Facts(codec, s) && tid in s.tasks.m && s.tasks.m[tid].HoldingCapability?
    requires s.tasks.m[tid].onward.ConfirmStash?
    ensures var t := s.tasks.m[tid]; Facts(codec, StepCapability(s, tid, t.gated, t.capability, t.onward))
  {
    hide Facts;
    var t := s.tasks.m[tid];
    TaskIsOk(codec, s, tid);
    Quietly(codec, s, StepCapability(s, tid, t.gated, t.capability, t.onward), tid);
  }

  lemma {:induction false} ArmBeginFacts(codec: Codec, s: Sys, tid: nat)
    requires Facts(codec, s) && tid in s.tasks.m && s.tasks.m[tid].HoldingCapability? && s.tasks.m[tid].onward.ArmBegin?
    ensures var t := s.tasks.m[tid]; Facts(codec, StepCapability(s, tid, t.gated, t.capability, t.onward))
  {
    hide Facts, A.BeginDispatch, PlainEntries;
    var t := s.tasks.m[tid];
    TaskIsOk(codec, s, tid);
    BeginIsPlain(s.journal, t.capability, s.minted);
    Ordinary(codec, s, StepCapability(s, tid, t.gated, t.capability, t.onward), tid);
  }

  lemma {:induction false} CancelBeginFacts(codec: Codec, s: Sys, tid: nat)
    requires Facts(codec, s) && tid in s.tasks.m && s.tasks.m[tid].HoldingCapability?
    requires s.tasks.m[tid].onward.CancelBegin?
    ensures var t := s.tasks.m[tid]; Facts(codec, StepCapability(s, tid, t.gated, t.capability, t.onward))
  {
    hide Facts, A.BeginDispatch, PlainEntries;
    var t := s.tasks.m[tid];
    TaskIsOk(codec, s, tid);
    BeginIsPlain(s.journal, t.capability, s.minted);
    Ordinary(codec, s, StepCapability(s, tid, t.gated, t.capability, t.onward), tid);
  }

  lemma {:induction false} CancelFinishFacts(codec: Codec, s: Sys, tid: nat, c: Choice)
    requires Facts(codec, s) && tid in s.tasks.m && s.tasks.m[tid].HoldingPermit? && s.tasks.m[tid].after.CancelFinish?
    ensures var t := s.tasks.m[tid]; Facts(codec, StepPermit(s, tid, t.gated, t.permit, t.after, c))
  {
    hide Facts;
    var t := s.tasks.m[tid];
    TaskIsOk(codec, s, tid);
    LinearizeEvolves(s.journal, t.permit, J.NotDispatched, c.ok, s.minted);
    Ordinary(codec, s, StepPermit(s, tid, t.gated, t.permit, t.after, c), tid);
  }

  /** Handing an action of a batch on, with or without a permit. */
  lemma {:induction false} HandedFacts(codec: Codec, s: Sys, s': Sys, tid: nat, x: QueuedAction, permitted: bool)
    requires Facts(codec, s) && tid in s.tasks.m && TaskTo(codec, s, s', tid) && x in s.sent
    requires permitted ==> CarriesBooked(codec, s, x)
    requires s'.log == s.log + [Delivered(x, permitted)]
    requires s'.minted == s.minted && s'.book == s.book && s'.sent == s.sent && s'.journal == s.journal
    requires s'.bindings == s.bindings && s'.queue == s.queue && s'.pending == s.pending && s'.records == s.records
    requires s'.seen == s.seen
    ensures Facts(codec, s')
  {
    hide Facts;
    var mid := s'.(log := s.log);
    Quietly(codec, s, mid, tid);
    SentIsOk(codec, s);
    LoggedFacts(codec, mid, s', Delivered(x, permitted));
  }

  lemma {:induction false} LoggedFacts(codec: Codec, s: Sys, s': Sys, e: Event)
    requires Facts(codec, s) && s' == s.(log := s.log + [e]) && EventOk(codec, s, e)
    ensures Facts(codec, s')
  {
    hide Facts;
    SameJournal(s.journal);
    assert Evolves(s, s');
    assert NewOk(codec, s, s');
    FactsCarry(codec, s, s');
  }

  lemma {:induction false} DeliverFacts(codec: Codec, s: Sys, tid: nat, c: Choice)
    requires Facts(codec, s) && tid in s.tasks.m && s.tasks.m[tid].HoldingPermit? && s.tasks.m[tid].after.ArmDeliver?
    ensures var t := s.tasks.m[tid]; Facts(codec, StepPermit(s, tid, t.gated, t.permit, t.after, c))
  {
    hide Facts;
    var t := s.tasks.m[tid];
    TaskIsOk(codec, s, tid);
    HandedFacts(codec, s, StepPermit(s, tid, t.gated, t.permit, t.after, c), tid, t.after.batch.head, true);
  }

  // ------------------------------------------------------------ arm, completion

  /** Passing the dispatch check pins the payload to what was booked. */
  lemma {:induction false} VerifiedCarries(codec: Codec, s: Sys, x: QueuedAction)
    requires Facts(codec, s) && x in s.sent
    requires VerifiedAtDispatch(codec, s.key, BindingFor(s, x.id), x.kind)
    ensures CarriesBooked(codec, s, x)
  {
    assert ItemOk(s, x);
    if x.id in s.book.m && s.book.m[x.id].payload.Some? {
      assert BookingOk(s.book.m[x.id]);
      assert BindingOk(s, x.id, s.bindings.m[x.id]);
    }
  }

  lemma {:induction false} ArmingFacts(codec: Codec, s: Sys, tid: nat)
    requires Facts(codec, s) && tid in s.tasks.m && s.tasks.m[tid].Bare? && s.tasks.m[tid].pc.Arming?
    ensures Facts(codec, StepArm(codec, s, tid, s.tasks.m[tid].pc))
  {
    hide Facts;
    var pc := s.tasks.m[tid].pc;
    var s' := StepArm(codec, s, tid, pc);
    TaskIsOk(codec, s, tid);
    if pc.batch.head.id !in pc.batch.tracked {
      HandedFacts(codec, s, s', tid, pc.batch.head, false);
    } else {
      if VerifiedAtDispatch(codec, s.key, BindingFor(s, pc.batch.head.id), pc.batch.head.kind) {
        VerifiedCarries(codec, s, pc.batch.head);
      }
      Quietly(codec, s, s', tid);
    }
  }

  lemma {:induction false} ArmSnapshotFacts(codec: Codec, s: Sys, tid: nat)
    requires Facts(codec, s) && tid in s.tasks.m && s.tasks.m[tid].Bare? && s.tasks.m[tid].pc.ArmSnapshot?
    ensures Facts(codec, StepArm(codec, s, tid, s.tasks.m[tid].pc))
  {
    hide Facts;
    TaskIsOk(codec, s, tid);
    Quietly(codec, s, StepArm(codec, s, tid, s.tasks.m[tid].pc), tid);
  }

  lemma {:induction false} TakenFacts(codec: Codec, s: Sys, tid: nat, b: Batch)
    requires Facts(codec, s) && tid in s.tasks.m && BatchOk(s, b) && CarriesBooked(codec, s, b.head)
    requires b.head.id in s.prepared.m && s.prepared.m[b.head.id].session == b.session
    ensures Facts(codec, StepArm(codec, s, tid, ArmTake(b)))
  {
    hide Facts;
    Quietly(codec, s, StepArm(codec, s, tid, ArmTake(b)), tid);
  }

  lemma {:induction false} ArmTakeFacts(codec: Codec, s: Sys, tid: nat)
    requires Facts(codec, s) && tid in s.tasks.m && s.tasks.m[tid].Bare? && s.tasks.m[tid].pc.ArmTake?
    ensures Facts(codec, StepArm(codec, s, tid, s.tasks.m[tid].pc))
  {
    hide Facts;
    TaskIsOk(codec, s, tid);
    var b := s.tasks.m[tid].pc.batch;
    if b.head.id in s.prepared.m && s.prepared.m[b.head.id].session == b.session {
      TakenFacts(codec, s, tid, b);
    } else {
      Quietly(codec, s, StepArm(codec, s, tid, s.tasks.m[tid].pc), tid);
    }
  }

  lemma {:induction false} RejectTakeFacts(codec: Codec, s: Sys, tid: nat)
    requires Facts(codec, s) && tid in s.tasks.m && s.tasks.m[tid].Bare? && s.tasks.m[tid].pc.RejectTake?
    ensures Facts(codec, StepArm(codec, s, tid, s.tasks.m[tid].pc))
  {
    hide Facts;
    TaskIsOk(codec, s, tid);
    Quietly(codec, s, StepArm(codec, s, tid, s.tasks.m[tid].pc), tid);
  }

  /** Setting a failure status and going on with the batch. */
  lemma {:induction false} StatusFacts(codec: Codec, s: Sys, tid: nat, a: Uuid, status: Status, s': Sys)
    requires Facts(codec, s) && tid in s.tasks.m && (status.VerifiedExpected? ==> IsCommitted(s.journal, a))
    requires s' == SetStatus(s, a, status).(tasks := s'.tasks, gate := s'.gate) && TaskTo(codec, s, s', tid)
    ensures Facts(codec, s')
  {
    hide Facts;
    SameJournal(s.journal);
    Ordinary(codec, s, s', tid);
  }

  lemma {:induction false} ArmRefuseFacts(codec: Codec, s: Sys, tid: nat)
    requires Facts(codec, s) && tid in s.tasks.m && s.tasks.m[tid].Bare? && s.tasks.m[tid].pc.ArmRefuse?
    ensures Facts(codec, StepArm(codec, s, tid, s.tasks.m[tid].pc))
  {
    hide Facts;
    var pc := s.tasks.m[tid].pc;
    TaskIsOk(codec, s, tid);
    StatusFacts(codec, s, tid, pc.batch.head.id, DispatchAuthorityFailed, StepArm(codec, s, tid, pc));
  }

  lemma {:induction false} RejectRecordFacts(codec: Codec, s: Sys, tid: nat)
    requires Facts(codec, s) && tid in s.tasks.m && s.tasks.m[tid].Bare? && s.tasks.m[tid].pc.RejectRecord?
    ensures Facts(codec, StepArm(codec, s, tid, s.tasks.m[tid].pc))
  {
    hide Facts;
    var pc := s.tasks.m[tid].pc;
    TaskIsOk(codec, s, tid);
    StatusFacts(codec, s, tid, pc.batch.head.id, PayloadAuthorityFailed, StepArm(codec, s, tid, pc));
  }

  lemma {:induction false} CompleteTakeFacts(codec: Codec, s: Sys, tid: nat)
    requires Facts(codec, s) && tid in s.tasks.m && s.tasks.m[tid].Bare? && s.tasks.m[tid].pc.CompleteTake?
    ensures var pc := s.tasks.m[tid].pc; Facts(codec, StepCompleteTake(s, tid, pc.session, pc.id, pc.succeeded))
  {
    hide Facts;
    var pc := s.tasks.m[tid].pc;
    Quietly(codec, s, StepCompleteTake(s, tid, pc.session, pc.id, pc.succeeded), tid);
  }

  lemma {:induction false} CompletingFacts(codec: Codec, s: Sys, tid: nat, c: Choice)
    requires Facts(codec, s) && tid in s.tasks.m && s.tasks.m[tid].Completing?
    ensures var t := s.tasks.m[tid]; Facts(codec, StepCompleting(s, tid, t.permit, t.succeeded, c))
  {
    hide Facts;
    var t := s.tasks.m[tid];
    var result := if t.succeeded then J.DispatchedFull else J.DispatchAmbiguous;
    LinearizeEvolves(s.journal, t.permit, result, c.ok, s.minted);
    Ordinary(codec, s, StepCompleting(s, tid, t.permit, t.succeeded, c), tid);
  }

  // ------------------------------------------------------------- reconciliation

  /** The journal alone moves on. */
  lemma {:induction false} JournalFacts(codec: Codec, s: Sys, j: A.State)
    requires Facts(codec, s) && JournalEvolves(s.journal, j)
    requires forall e | e in j.entries && e !in s.journal.entries :: EntryOk(s, e)
    ensures Facts(codec, s.(journal := j))
  {
    hide Facts;
    var s' := s.(journal := j);
    assert Evolves(s, s');
    assert NewOk(codec, s, s');
    FactsCarry(codec, s, s');
  }

  lemma {:induction false} UnresolvableFacts(codec: Codec, s: Sys, tid: nat, a: Uuid)
    requires Facts(codec, s) && tid in s.tasks.m
    ensures Facts(codec, Unresolvable(s, tid, a))
  {
    hide Facts;
    StatusFacts(codec, s, tid, a, ReconciliationRequired, Unresolvable(s, tid, a));
  }

  lemma {:induction false} ReconcileBeforeFacts(codec: Codec, s: Sys, tid: nat, c: Choice)
    requires Facts(codec, s) && tid in s.tasks.m && s.tasks.m[tid].Bare? && s.tasks.m[tid].pc.ReconcileBefore?
    ensures Facts(codec, StepReconcile(s, tid, s.tasks.m[tid].pc, c))
  {
    hide Facts;
    var pc := s.tasks.m[tid].pc;
    TaskIsOk(codec, s, tid);
    if SurfaceIs(c.surface, c.lineage, pc.initial.authority) {
      Quietly(codec, s, StepReconcile(s, tid, pc, c), tid);
    } else {
      UnresolvableFacts(codec, s, tid, pc.id);
    }
  }

  lemma {:induction false} ReconcileBeginFacts(codec: Codec, s: Sys, tid: nat, c: Choice)
    requires Facts(codec, s) && tid in s.tasks.m && s.tasks.m[tid].Bare? && s.tasks.m[tid].pc.ReconcileBegin?
    ensures Facts(codec, StepReconcile(s, tid, s.tasks.m[tid].pc, c))
  {
    hide Facts;
    var pc := s.tasks.m[tid].pc;
    TaskIsOk(codec, s, tid);
    if A.BeginObservation(s.journal, pc.id, s.minted).1.None? {
      UnresolvableFacts(codec, s, tid, pc.id);
    } else {
      ObservingIsPlain(s.journal, pc.id, s.minted);
      Ordinary(codec, s, StepReconcile(s, tid, pc, c), tid);
    }
  }

  lemma {:induction false} ReconcileSnapshotFacts(codec: Codec, s: Sys, tid: nat, c: Choice)
    requires Facts(codec, s) && tid in s.tasks.m && s.tasks.m[tid].Bare? && s.tasks.m[tid].pc.ReconcileSnapshot?
    ensures Facts(codec, StepReconcile(s, tid, s.tasks.m[tid].pc, c))
  {
    hide Facts;
    var pc := s.tasks.m[tid].pc;
    TaskIsOk(codec, s, tid);
    var snap := A.Snapshot(c.receiptId, pc.initial.authority.provider, pc.initial.authority.target,
                           pc.observing.grant.cut);
    ObservationEvolves(s.journal, pc.id, pc.observing, snap, s.minted);
    if !c.ok || !SurfaceIs(c.surfaceAfter, c.lineageAfter, pc.initial.authority) {
      JournalFacts(codec, s, A.AbandonObservation(s.journal, pc.observing).0);
      UnresolvableFacts(codec, s.(journal := A.AbandonObservation(s.journal, pc.observing).0), tid, pc.id);
    } else {
      var (j, receipt) := A.CompleteObservation(s.journal, pc.observing, snap);
      JournalFacts(codec, s, j);
      if receipt.None? {
        UnresolvableFacts(codec, s.(journal := j), tid, pc.id);
      } else {
        ObservedFacts(codec, s.(journal := j), StepReconcile(s, tid, pc, c), tid, pc.id, pc.initial, receipt.value);
      }
    }
  }

  /** The observation is logged before its receipt is used. */
  lemma {:induction false} ObservedFacts(codec: Codec, s: Sys, s': Sys, tid: nat, a: Uuid, initial: Record,
                                         observed: A.ObservationReceipt)
    requires Facts(codec, s) && tid in s.tasks.m && RecordOf(s, a, initial)
    requires observed.action == a && A.NoDispatchAuthority(s.journal, a)
    requires s' == s.(log := s.log + [Observed(a, initial.authority, initial.authority, observed.cut)],
                      tasks := s.tasks.With(tid, Bare(false, ReconcileReceipt(a, initial, observed))))
    ensures Facts(codec, s')
  {
    hide Facts;
    var mid := s.(log := s'.log);
    LoggedFacts(codec, s, mid, Observed(a, initial.authority, initial.authority, observed.cut));
    Quietly(codec, mid, s', tid);
  }

  lemma {:induction false} ReceiptRecordedFacts(codec: Codec, s: Sys, tid: nat, d: J.ReceiptDraft, a: Uuid, s': Sys)
    requires Facts(codec, s) && tid in s.tasks.m && Witnessed(s, d.action, d.observationCut)
    requires s' == s.(journal := A.RecordPostcondition(s.journal, d, true).0,
                      tasks := s.tasks.With(tid, Bare(false, ReconcileCommit(a, d.verdict))))
    ensures Facts(codec, s')
  {
    hide Facts;
    var t := J.PostconditionRecorded(J.Receipt(d, (d.action, s.journal.nextSequence), s.journal.nextSequence));
    RecordEvolves(s.journal, d.action, t, true);
    JournalFacts(codec, s, s'.journal);
    Quietly(codec, s.(journal := s'.journal), s', tid);
  }

  lemma {:induction false} ReconcileReceiptFacts(codec: Codec, s: Sys, tid: nat, c: Choice)
    requires Facts(codec, s) && tid in s.tasks.m && s.tasks.m[tid].Bare? && s.tasks.m[tid].pc.ReconcileReceipt?
    ensures Facts(codec, StepReconcile(s, tid, s.tasks.m[tid].pc, c))
  {
    hide Facts;
    var pc := s.tasks.m[tid].pc;
    var s' := StepReconcile(s, tid, pc, c);
    TaskIsOk(codec, s, tid);
    if s' == Unresolvable(s, tid, pc.id) {
      UnresolvableFacts(codec, s, tid, pc.id);
    } else {
      var envelope := J.AdmittedEnvelope(s.journal.entries, pc.id);
      var d := Draft(pc.observed, envelope.value.expected, Evidence(pc.initial.expected, c.verdicts));
      ReceiptRecordedFacts(codec, s, tid, d, pc.id, s');
    }
  }

  lemma {:induction false} CommittedFacts(codec: Codec, s: Sys, tid: nat, a: Uuid, durable: bool, s': Sys)
    requires Facts(codec, s) && tid in s.tasks.m
    requires var (j, ok) := A.Record(s.journal, a, J.Committed, durable);
             s' == s.(journal := j, tasks := s.tasks.With(tid, Bare(false,
                     ReconcileFinish(a, if ok then VerifiedExpected else ReconciliationRequired))))
    ensures Facts(codec, s')
  {
    hide Facts;
    RecordEvolves(s.journal, a, J.Committed, durable);
    J.RecoveryAppend(s.journal.entries, J.Entry(s.journal.nextSequence, a, J.Committed), a);
    JournalFacts(codec, s, s'.journal);
    Quietly(codec, s.(journal := s'.journal), s', tid);
  }

  lemma {:induction false} ReconcileCommitFacts(codec: Codec, s: Sys, tid: nat, c: Choice)
    requires Facts(codec, s) && tid in s.tasks.m && s.tasks.m[tid].Bare? && s.tasks.m[tid].pc.ReconcileCommit?
    ensures Facts(codec, StepReconcile(s, tid, s.tasks.m[tid].pc, c))
  {
    hide Facts;
    var pc := s.tasks.m[tid].pc;
    if pc.verdict == J.VerifiedExpected {
      CommittedFacts(codec, s, tid, pc.id, c.ok, StepReconcile(s, tid, pc, c));
    } else {
      Quietly(codec, s, StepReconcile(s, tid, pc, c), tid);
    }
  }

  lemma {:induction false} ReconcileFinishFacts(codec: Codec, s: Sys, tid: nat, c: Choice)
    requires Facts(codec, s) && tid in s.tasks.m && s.tasks.m[tid].Bare? && s.tasks.m[tid].pc.ReconcileFinish?
    ensures Facts(codec, StepReconcile(s, tid, s.tasks.m[tid].pc, c))
  {
    hide Facts;
    var pc := s.tasks.m[tid].pc;
    TaskIsOk(codec, s, tid);
    StatusFacts(codec, s, tid, pc.id, pc.status, StepReconcile(s, tid, pc, c));
  }

  // ------------------------------------------------------------------ all steps

  lemma {:induction false} PlanConfirmFacts(codec: Codec, s: Sys, tid: nat, c: Choice)
    requires Inv(s) && Facts(codec, s) && tid in s.tasks.m && s.tasks.m[tid].Bare?
    requires IsPlanPc(s.tasks.m[tid].pc) || IsConfirmPc(s.tasks.m[tid].pc)
    ensures Facts(codec, Continue(codec, s, tid, s.tasks.m[tid], c))
  {
    hide Facts, Inv, StepPlanStart, StepConfirm, StepRelease, StepArm, StepReconcile;
    var pc := s.tasks.m[tid].pc;
    if pc.PlanBind? { PlanBindFacts(codec, s, tid, c); }
    else if IsPlanPc(pc) { PlanStartFacts(codec, s, tid, c); }
    else if pc.ConfirmConsume? { ConsumeFacts(codec, s, tid, c); }
    else if pc.ConfirmRecord? { ConfirmRecordFacts(codec, s, tid, c); }
    else if pc.ConfirmEnqueue? { ConfirmEnqueueFacts(codec, s, tid, c); }
    else { RollbackFacts(codec, s, tid, c); }
  }

  lemma {:induction false} ReleaseArmFacts(codec: Codec, s: Sys, tid: nat, c: Choice)
    requires Facts(codec, s) && tid in s.tasks.m && s.tasks.m[tid].Bare?
    requires IsReleasePc(s.tasks.m[tid].pc) || IsArmPc(s.tasks.m[tid].pc) || s.tasks.m[tid].pc.CompleteTake?
    ensures Facts(codec, Continue(codec, s, tid, s.tasks.m[tid], c))
  {
    hide Facts, StepPlanStart, StepConfirm, StepRelease, StepArm, StepReconcile;
    var pc := s.tasks.m[tid].pc;
    if pc.ReleaseQueue? { ReleaseQueueFacts(codec, s, tid); }
    else if IsReleasePc(pc) { ReleaseFacts(codec, s, tid); }
    else if pc.ArmSnapshot? { ArmSnapshotFacts(codec, s, tid); }
    else if pc.Arming? { ArmingFacts(codec, s, tid); }
    else if pc.ArmTake? { ArmTakeFacts(codec, s, tid); }
    else if pc.ArmRefuse? { ArmRefuseFacts(codec, s, tid); }
    else if pc.RejectTake? { RejectTakeFacts(codec, s, tid); }
    else if pc.RejectRecord? { RejectRecordFacts(codec, s, tid); }
    else { CompleteTakeFacts(codec, s, tid); }
  }

  lemma {:induction false} BareFacts(codec: Codec, s: Sys, tid: nat, c: Choice)
    requires Inv(s) && Facts(codec, s) && tid in s.tasks.m && s.tasks.m[tid].Bare?
    ensures Facts(codec, Continue(codec, s, tid, s.tasks.m[tid], c))
  {
    hide Facts, Inv, StepPlanStart, StepConfirm, StepRelease, StepArm, StepReconcile;
    var pc := s.tasks.m[tid].pc;
    if IsPlanPc(pc) || IsConfirmPc(pc) { PlanConfirmFacts(codec, s, tid, c); }
    else if IsReleasePc(pc) || IsArmPc(pc) || pc.CompleteTake? { ReleaseArmFacts(codec, s, tid, c); }
    else if pc.ReconcileBefore? { ReconcileBeforeFacts(codec, s, tid, c); }
    else if pc.ReconcileBegin? { ReconcileBeginFacts(codec, s, tid, c); }
    else if pc.ReconcileSnapshot? { ReconcileSnapshotFacts(codec, s, tid, c); }
    else if pc.ReconcileReceipt? { ReconcileReceiptFacts(codec, s, tid, c); }
    else if pc.ReconcileCommit? { ReconcileCommitFacts(codec, s, tid, c); }
    else { ReconcileFinishFacts(codec, s, tid, c); }
  }

  lemma {:induction false} HoldingFacts(codec: Codec, s: Sys, tid: nat, c: Choice)
    requires Facts(codec, s) && tid in s.tasks.m && !s.tasks.m[tid].Bare?
    ensures Facts(codec, Continue(codec, s, tid, s.tasks.m[tid], c))
  {
    hide Facts, StepPlan, StepConfirmPlan, StepCapability, StepPermit, StepDrain;
    match s.tasks.m[tid]
    case HoldingPlan(_, at) =>
      match at {
        case PlanIntent => PlanIntentFacts(codec, s, tid, c);
        case PlanOperation => PlanOperationFacts(codec, s, tid, c);
        case PlanPayload => PlanPayloadFacts(codec, s, tid, c);
        case PlanInsert => PlanInsertFacts(codec, s, tid, c);
        case ConfirmMaterialize => MaterializeFacts(codec, s, tid, c);
        case ConfirmAuthorize => AuthorizeFacts(codec, s, tid, c);
        case ConfirmPrepare(_) => PrepareFacts(codec, s, tid, c);
        case _ => ConfirmChecksFacts(codec, s, tid, c);
      }
    case HoldingCapability(_, _, onward) =>
      match onward {
        case ConfirmStash(_) => StashFacts(codec, s, tid);
        case ArmBegin(_) => ArmBeginFacts(codec, s, tid);
        case CancelBegin(_) => CancelBeginFacts(codec, s, tid);
      }
    case HoldingPermit(_, _, after) =>
      match after {
        case ArmDeliver(_) => DeliverFacts(codec, s, tid, c);
        case CancelFinish(_) => CancelFinishFacts(codec, s, tid, c);
      }
    case Completing(_, _) => CompletingFacts(codec, s, tid, c);
    case Draining(_, _, _, _) => DrainFacts(codec, s, tid, c);
  }

  lemma {:induction false} TakingShrinks(q: seq<QueuedAction>, session: Uuid, limit: nat)
    ensures forall x | x in TakenOf(q, session, limit) :: x in q
    ensures forall x | x in RemainderOf(q, session, limit) :: x in q
  {
    if q != [] && limit != 0 {
      TakingShrinks(q[1..], session, limit - 1);
      TakingShrinks(q[1..], session, limit);
    }
  }

  lemma {:induction false} SpawnFacts(codec: Codec, s: Sys, gated: bool, pc: Pc)
    requires Facts(codec, s) && PcOk(codec, s, pc)
    ensures Facts(codec, Spawn(s, gated, pc))
  {
    hide Facts, PlanOk, BindingOk, EventOk, EntryOk, RecordOk, PcOk;
    var s' := Spawn(s, gated, pc);
    SentIsOk(codec, s);
    SameJournal(s.journal);
    assert Evolves(s, s');
    PcCarries(codec, s, s', pc);
    assert NewOk(codec, s, s');
    FactsCarry(codec, s, s');
  }

  /** What is handed over without arming was sent before. */
  lemma {:induction false} PublicFacts(codec: Codec, s: Sys, session: Uuid)
    requires Facts(codec, s)
    ensures Facts(codec, Step(codec, s, DrainPublic(session)))
  {
    hide Facts, Continue, Spawn, PlanOk, BindingOk, EntryOk, RecordOk, TaskOk;
    var s' := Step(codec, s, DrainPublic(session));
    SentIsOk(codec, s);
    TakingShrinks(s.queue, session, PUBLIC_LIMIT);
    forall e | e in Unpermitted(TakenOf(s.queue, session, PUBLIC_LIMIT)) ensures EventOk(codec, s', e) {
      assert ItemOk(s, e.action);
    }
    SameJournal(s.journal);
    assert Evolves(s, s');
    assert NewOk(codec, s, s');
    FactsCarry(codec, s, s');
  }

  /** What the environment does: queue anew, redeliver, drop an action or a record. */
  lemma {:induction false} EnvironmentFacts(codec: Codec, s: Sys, l: Label)
    requires Inv(s) && Facts(codec, s)
    requires l.ExpireRecord? || l.EnqueuePublic? || l.DropQueued? || l.Redeliver?
    ensures Facts(codec, Step(codec, s, l))
  {
    hide Facts, Inv, Continue, Spawn;
    var s' := Step(codec, s, l);
    SameJournal(s.journal);
    if l.EnqueuePublic? { FreshIsUnbooked(s); }
    assert Evolves(s, s');
    assert NewOk(codec, s, s');
    FactsCarry(codec, s, s');
  }

  lemma {:induction false} FreshIsUnbooked(s: Sys)
    requires Inv(s)
    ensures s.minted !in s.book.m
  {
    assert ActionInv(s, s.minted);
  }

  lemma {:induction false} RestartFacts(codec: Codec, s: Sys, keyAvailable: bool)
    requires Facts(codec, s)
    ensures Facts(codec, Step(codec, s, Restart(keyAvailable)))
  {
    hide Facts, Continue, Spawn;
    var s' := Step(codec, s, Restart(keyAvailable));
    assert JournalEvolves(s.journal, s'.journal);
    assert Evolves(s, s');
    assert NewOk(codec, s, s');
    FactsCarry(codec, s, s');
  }

  lemma {:induction false} PendingFacts(codec: Codec, s: Sys, a: Uuid)
    requires Facts(codec, s) && a in s.records.m
    ensures Facts(codec, SetStatus(s, a, PendingReconciliation))
    ensures RecordOf(SetStatus(s, a, PendingReconciliation), a, s.records.m[a])
  {
    hide Facts;
    var mid := SetStatus(s, a, PendingReconciliation);
    SameJournal(s.journal);
    RecordIsOk(codec, s, a);
    assert Evolves(s, mid);
    assert NewOk(codec, s, mid);
    FactsCarry(codec, s, mid);
  }

  lemma {:induction false} StartReconcileFacts(codec: Codec, s: Sys, session: Uuid, a: Uuid)
    requires Facts(codec, s)
    ensures Facts(codec, Step(codec, s, StartReconcile(session, a)))
  {
    hide Facts, Continue, Spawn, SetStatus, RecordOf;
    if a in s.records.m && s.records.m[a].session == session {
      PendingFacts(codec, s, a);
      SpawnFacts(codec, SetStatus(s, a, PendingReconciliation), false, ReconcileBefore(a, s.records.m[a]));
    }
  }

  lemma {:induction false} TakenQueueFacts(codec: Codec, s: Sys, session: Uuid, limit: nat)
    requires Facts(codec, s)
    ensures Facts(codec, s.(queue := RemainderOf(s.queue, session, limit)))
    ensures forall x | x in TakenOf(s.queue, session, limit) :: x in s.sent
  {
    hide Facts;
    var mid := s.(queue := RemainderOf(s.queue, session, limit));
    TakingShrinks(s.queue, session, limit);
    SentIsOk(codec, s);
    SameJournal(s.journal);
    assert Evolves(s, mid);
    assert NewOk(codec, s, mid);
    FactsCarry(codec, s, mid);
  }

  lemma {:induction false} StartArmFacts(codec: Codec, s: Sys, session: Uuid)
    requires Facts(codec, s)
    ensures Facts(codec, Step(codec, s, StartArm(session)))
  {
    hide Facts, Continue, Spawn, TakenOf, RemainderOf;
    var mid := s.(queue := RemainderOf(s.queue, session, TAKE_LIMIT));
    TakenQueueFacts(codec, s, session, TAKE_LIMIT);
    SpawnFacts(codec, mid, false, ArmSnapshot(session, TakenOf(s.queue, session, TAKE_LIMIT)));
  }

  lemma {:induction false} StepFacts(codec: Codec, s: Sys, l: Label)
    requires Inv(s) && Facts(codec, s)
    ensures Facts(codec, Step(codec, s, l))
  {
    hide Facts, Inv, Continue, Spawn;
    match l
    case StartPlan(r) => SpawnFacts(codec, s, true, PlanPrunePending(r));
    case StartConfirm(session, a, confirmation) => SpawnFacts(codec, s, true, ConfirmConsume(session, a, confirmation));
    case StartRelease(session) => SpawnFacts(codec, s, true, ReleasePending(session));
    case StartArm(session) => StartArmFacts(codec, s, session);
    case StartComplete(session, a, succeeded) => SpawnFacts(codec, s, false, CompleteTake(session, a, succeeded));
    case StartReconcile(session, a) => StartReconcileFacts(codec, s, session, a);
    case Advance(tid, c) =>
      if tid in s.tasks.m {
        if s.tasks.m[tid].Bare? { BareFacts(codec, s, tid, c); } else { HoldingFacts(codec, s, tid, c); }
      }
    case Restart(keyAvailable) => RestartFacts(codec, s, keyAvailable);
    case DrainPublic(session) => PublicFacts(codec, s, session);
    case _ => EnvironmentFacts(codec, s, l);
  }
}
