/**
 * The four tables of the control handle as the mutable maps they are. Each
 * method is what a handler does under one table's lock, and moves the tables
 * exactly as the protocol's step does.
 */
module ManagedTables {
  import opened Common
  import opened Managed
  import opened ManagedPayload
  import A = JournalApi

  datatype Consumed = Missing | SessionMismatch | Expired | ConfirmationMismatch | Taken(plan: Plan)

  /** Collect the keys whose entry meets a condition. */
  method KeysOf<V>(m: map<Uuid, V>, wanted: V -> bool) returns (ids: seq<Uuid>)
    ensures NoDuplicates(ids) && ToSet(ids) == (set a | a in m && wanted(m[a]))
  {
    ids := [];
    var rest := m.Keys;
    while rest != {}
      invariant rest <= m.Keys && NoDuplicates(ids)
      invariant forall a :: a in ids <==> a in m && a !in rest && wanted(m[a])
      decreases |rest|
    {
      var a :| a in rest;
      rest := rest - {a};
      if wanted(m[a]) { ids := ids + [a]; }
    }
  }

  /** Remove the listed keys one by one, keeping what was under them. */
  method Remove<V>(m: map<Uuid, V>, ids: seq<Uuid>) returns (left: map<Uuid, V>, taken: map<Uuid, V>)
    requires NoDuplicates(ids) && ToSet(ids) <= m.Keys
    ensures left == m - ToSet(ids) && taken == (map a | a in ToSet(ids) :: m[a])
  {
    left, taken := m, map[];
    for i := 0 to |ids|
      invariant left == m - ToSet(ids[..i]) && taken == (map a | a in ToSet(ids[..i]) :: m[a])
    {
      var a := ids[i];
      assert a in ToSet(ids) && ids[..i + 1] == ids[..i] + [a];
      assert ToSet(ids[..i + 1]) == ToSet(ids[..i]) + {a};
      taken := taken[a := m[a]];
      left := left - {a};
    }
    assert ids[..|ids|] == ids;
  }

  /** Collect the keys first, then remove them. */
  method Extract<V>(m: map<Uuid, V>, wanted: V -> bool) returns (left: map<Uuid, V>, taken: map<Uuid, V>)
    ensures taken == (map a | a in m && wanted(m[a]) :: m[a]) && left == m - taken.Keys
  {
    var ids := KeysOf(m, wanted);
    left, taken := Remove(m, ids);
    assert taken.Keys == ToSet(ids);
  }

  lemma ReleasedPrepared(s: Sys, tid: nat, session: Uuid, taken: map<Uuid, PreparedDispatch>)
    requires taken == map a | a in s.prepared.m && s.prepared.m[a].session == session :: s.prepared.m[a]
    ensures var s' := StepRelease(s, tid, ReleasePrepared(session));
            && s'.pending == s.pending && s'.prepared.m == s.prepared.m - taken.Keys
            && s'.executing == s.executing && s'.records == s.records && tid in s'.tasks.m
            && s'.tasks.m[tid] ==
               Draining(session, map a | a in taken :: taken[a].capability, map[], TakeExecuting)
  {
    assert (map a | a in taken :: taken[a].capability) ==
           map a | a in s.prepared.m && s.prepared.m[a].session == session :: s.prepared.m[a].capability;
  }

  lemma ReleasedExecuting(s: Sys, tid: nat, t: Task, c: Choice, taken: map<Uuid, ExecutingDispatch>)
    requires t.Draining? && t.current.TakeExecuting?
    requires taken == map a | a in s.executing.m && s.executing.m[a].session == t.session :: s.executing.m[a]
    ensures var s' := StepDrain(s, tid, t, c);
            && s'.pending == s.pending && s'.prepared == s.prepared
            && s'.executing.m == s.executing.m - taken.Keys && s'.records == s.records && tid in s'.tasks.m
            && s'.tasks.m[tid] == t.(permits := map a | a in taken :: taken[a].permit, current := Idle)
  {
    assert (map a | a in taken :: taken[a].permit) ==
           map a | a in s.executing.m && s.executing.m[a].session == t.session :: s.executing.m[a].permit;
  }

  class ControlTables {
    var pending: map<Uuid, Plan>
    var prepared: map<Uuid, PreparedDispatch>
    var executing: map<Uuid, ExecutingDispatch>
    var records: map<Uuid, Record>

    /** These are the tables of that protocol state. */
    ghost predicate Shows(s: Sys)
      reads this
    {
      && s.pending.m == pending && s.prepared.m == prepared
      && s.executing.m == executing && s.records.m == records
    }

    predicate OnlyPreparedChanged(pending0: map<Uuid, Plan>, executing0: map<Uuid, ExecutingDispatch>,
                                  records0: map<Uuid, Record>)
      reads this
    {
      pending == pending0 && executing == executing0 && records == records0
    }

    constructor (ghost keyAvailable: bool)
      ensures Shows(Init(keyAvailable))
    {
      pending, prepared, executing, records := map[], map[], map[], map[];
    }

    /** The pending half of `prune_expired`. */
    method PrunePending(expired: set<Uuid>, ghost s: Sys, ghost codec: Codec, ghost tid: nat, ghost r: PlanRequest,
                        ghost c: Choice)
      requires Shows(s) && c.expired == expired
      modifies this
      ensures Shows(StepPlanStart(codec, s, tid, PlanPrunePending(r), c))
    {
      var ids: seq<Uuid> := [];
      var rest := pending.Keys;
      while rest != {}
        invariant rest <= pending.Keys && NoDuplicates(ids)
        invariant forall a :: a in ids <==> a in pending && a !in rest && a in expired
        invariant Shows(s)
        decreases |rest|
      {
        var a :| a in rest;
        rest := rest - {a};
        if a in expired { ids := ids + [a]; }
      }
      assert ToSet(ids) == pending.Keys * expired;
      var left, _ := Remove(pending, ids);
      pending := left;
    }

    /** The one-shot consume of a confirmation. */
    method ConsumeConfirmation(session: Uuid, a: Uuid, confirmation: Uuid, expired: set<Uuid>,
                               ghost s: Sys, ghost tid: nat, ghost c: Choice) returns (r: Consumed)
      requires Shows(s) && c.expired == expired
      modifies this
      ensures var s' := StepConfirm(s, tid, ConfirmConsume(session, a, confirmation), c);
              && Shows(s')
              && (r.Taken? ==>
                    s' == Become(Move(s.(pending := s'.pending,
                                         seen := s.seen + [ConfirmTook(a, session, confirmation, false)]),
                                      a, InTask(tid, Planned)),
                                 tid, HoldingPlan(r.plan, ConfirmCheck)))
              && (!r.Taken? ==> tid !in s'.tasks.m)
      ensures r.Taken? <==> a in old(pending) && old(pending)[a].action.session == session
                            && a !in expired && old(pending)[a].confirmation == confirmation
      ensures r.Taken? || r.Expired? ==> pending == old(pending) - {a}
      ensures r.Missing? || r.SessionMismatch? || r.ConfirmationMismatch? ==> pending == old(pending)
    {
      if a !in pending { return Missing; }
      var existing := pending[a];
      if existing.action.session != session { return SessionMismatch; }
      if a in expired {
        pending := pending - {a};
        return Expired;
      }
      if existing.confirmation != confirmation { return ConfirmationMismatch; }
      pending := pending - {a};
      return Taken(existing);
    }

    /** Release, pending plans. */
    method ReleaseSessionPending(session: Uuid, ghost s: Sys, ghost tid: nat)
      requires Shows(s)
      modifies this
      ensures Shows(StepRelease(s, tid, ReleasePending(session)))
    {
      var ids := KeysOf(pending, (p: Plan) => p.action.session == session);
      var left, _ := Remove(pending, ids);
      pending := left;
    }

    /** Release, prepared dispatches: collect the ids, then remove each. */
    method TakeSessionPrepared(session: Uuid, ghost s: Sys, ghost tid: nat) returns (taken: map<Uuid, A.Capability>)
      requires Shows(s)
      modifies this
      ensures var s' := StepRelease(s, tid, ReleasePrepared(session));
              Shows(s') && tid in s'.tasks.m && s'.tasks.m[tid] == Draining(session, taken, map[], TakeExecuting)
    {
      hide StepRelease;
      var left, entries := Extract(prepared, (d: PreparedDispatch) => d.session == session);
      ReleasedPrepared(s, tid, session, entries);
      prepared := left;
      taken := map a | a in entries :: entries[a].capability;
    }

    /** Release, executing dispatches. */
    method TakeSessionExecuting(session: Uuid, ghost s: Sys, ghost tid: nat, ghost t: Task, ghost c: Choice)
      returns (taken: map<Uuid, A.Permit>)
      requires Shows(s) && t.Draining? && t.session == session && t.current.TakeExecuting?
      modifies this
      ensures var s' := StepDrain(s, tid, t, c);
              Shows(s') && tid in s'.tasks.m && s'.tasks.m[tid] == t.(permits := taken, current := Idle)
    {
      hide StepDrain;
      var left, entries := Extract(executing, (d: ExecutingDispatch) => d.session == session);
      ReleasedExecuting(s, tid, t, c, entries);
      executing := left;
      taken := map a | a in entries :: entries[a].permit;
    }

    /** Which actions of a batch are tracked: those whose record of this session still exists. */
    method TrackedIds(session: Uuid, actions: seq<QueuedAction>, ghost s: Sys, ghost codec: Codec, ghost tid: nat)
      returns (tracked: set<Uuid>)
      requires Shows(s) && actions != []
      ensures StepArm(codec, s, tid, ArmSnapshot(session, actions))
           == Become(s, tid, Bare(false, Arming(Batch(session, tracked, actions[0], actions[1..]))))
    {
      tracked := {};
      for i := 0 to |actions|
        invariant tracked == set x | x in actions[..i] && x.id in records && records[x.id].session == session :: x.id
      {
        assert actions[..i + 1] == actions[..i] + [actions[i]];
        var a := actions[i].id;
        if a in records && records[a].session == session { tracked := tracked + {a}; }
      }
      assert actions[..|actions|] == actions;
    }

    /** Arm: take the capability out of the prepared table, whatever session it is of. */
    method TakeForArming(b: Batch, ghost s: Sys, ghost codec: Codec, ghost tid: nat)
      returns (capability: Option<A.Capability>)
      requires Shows(s)
      modifies this
      ensures var s' := StepArm(codec, s, tid, ArmTake(b));
              && Shows(s') && tid in s'.tasks.m
              && s'.tasks.m[tid] == (if capability.Some? then HoldingCapability(false, capability.value, ArmBegin(b))
                                     else Bare(false, ArmRefuse(b)))
      ensures capability.Some? <==> b.head.id in old(prepared) && old(prepared)[b.head.id].session == b.session
      ensures capability.Some? ==> capability.value == old(prepared)[b.head.id].capability
      ensures prepared == old(prepared) - {b.head.id} && OnlyPreparedChanged(old(pending), old(executing), old(records))
    {
      var a := b.head.id;
      if a !in prepared { return None; }
      var entry := prepared[a];
      prepared := prepared - {a};
      return if entry.session == b.session then Some(entry.capability) else None;
    }

    /** Completion: take the permit out of the executing table, whatever session it is of. */
    method TakeForCompletion(session: Uuid, a: Uuid, succeeded: bool, ghost s: Sys, ghost tid: nat)
      returns (permit: Option<A.Permit>)
      requires Shows(s)
      modifies this
      ensures var s' := StepCompleteTake(s, tid, session, a, succeeded);
              && Shows(s')
              && (permit.Some? ==> tid in s'.tasks.m && s'.tasks.m[tid] == Completing(permit.value, succeeded))
              && (permit.None? ==> tid !in s'.tasks.m)
      ensures permit.Some? <==> a in old(executing) && old(executing)[a].session == session
      ensures permit.Some? ==> permit.value == old(executing)[a].permit
      ensures executing == old(executing) - {a}
      ensures pending == old(pending) && prepared == old(prepared) && records == old(records)
    {
      if a !in executing { return None; }
      var entry := executing[a];
      executing := executing - {a};
      return if entry.session == session then Some(entry.permit) else None;
    }

    /** Rollback of a failed enqueue: the record goes first, then the capability. */
    method RollBack(p: Plan, ghost s: Sys, ghost tid: nat, ghost c: Choice) returns (capability: Option<A.Capability>)
      requires Shows(s)
      modifies this
      ensures var s' := StepConfirm(StepConfirm(s, tid, RollbackRecord(p), c), tid, RollbackTake(p), c);
              && Shows(s')
              && (capability.Some? ==>
                    && tid in s'.tasks.m
                    && s'.tasks.m[tid] == HoldingCapability(true, capability.value, CancelBegin(RollbackEnd(p))))
              && (capability.None? ==> tid !in s'.tasks.m)
      ensures capability == if p.action.id in old(prepared) then Some(old(prepared)[p.action.id].capability) else None
      ensures prepared == old(prepared) - {p.action.id} && records == old(records) - {p.action.id}
      ensures pending == old(pending) && executing == old(executing)
    {
      var a := p.action.id;
      records := records - {a};
      if a !in prepared { return None; }
      var entry := prepared[a];
      prepared := prepared - {a};
      return Some(entry.capability);
    }
  }
}
