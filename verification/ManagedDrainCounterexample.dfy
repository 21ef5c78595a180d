/**
 * The drain that arms nothing hands out a confirmed action whose record is
 * present, and the release of its session then writes that it was not
 * dispatched.
 */
module ManagedDrainCounterexample {
  import opened Common
  import opened ManagedPayload
  import opened Managed
  import opened ManagedCounterexample
  import J = Journal
  import A = JournalApi
  import T = ManagedTheorems
  import D = ManagedDeliveries

  const PERMIT_GRANT := A.Grant(10, 3, "dispatch-prepared")
  const PERMIT := A.Permit(0, ACTION, PERMIT_GRANT)
  const PICK := GOOD.(pick := ACTION)
  const DENIAL := J.Entry(4, ACTION, J.DispatchLinearized(11, J.NotDispatched))

  /** The action was armed and then drained; its record is still there. */
  function Drained(minted: Uuid): Sys {
    Armed({}).(minted := minted, queue := [], log := [Delivered(QUEUED, false)])
  }

  /** The release has taken the capability. */
  function Taken(): Sys {
    Drained(10).(prepared := Table(map[]), place := Table(map[ACTION := InTask(9, Capable)]))
  }

  /** It has made it into a permit. */
  function Begun(): Sys {
    Drained(11).(prepared := Table(map[]), place := Table(map[ACTION := InTask(9, Permitted)]),
                 journal := A.State(0, 4, Entries(), map[], map[ACTION := PERMIT_GRANT], map[]))
  }

  /** It has written that the action was not dispatched. */
  function Denied(): Sys {
    Drained(12).(prepared := Table(map[]), place := Table(map[ACTION := Spent]),
                 journal := A.State(0, 5, Entries() + [DENIAL], map[], map[], map[]))
  }

  function Releasing(s: Sys, capabilities: map<Uuid, A.Capability>, current: Cancelling): Sys {
    Doing(s, 9, Draining(SESSION, capabilities, map[], current))
  }

  lemma DrainTakes(codec: Codec)
    ensures Leads(codec, Armed({}), DrainPublic(SESSION), Drained(9))
  {
    hide Continue;
    assert [QUEUED][1..] == [];
    assert TakenOf([QUEUED], SESSION, PUBLIC_LIMIT) == [QUEUED];
    assert RemainderOf([QUEUED], SESSION, PUBLIC_LIMIT) == [];
    assert Unpermitted([QUEUED]) == [Delivered(QUEUED, false)];
  }

  lemma ReleaseStarts(codec: Codec)
    ensures Leads(codec, Drained(9), StartRelease(SESSION), Doing(Drained(10), 9, Bare(true, ReleasePending(SESSION))))
  {
    hide Continue;
  }

  lemma ReleaseClears(codec: Codec)
    ensures Leads(codec, Doing(Drained(10), 9, Bare(true, ReleasePending(SESSION))), Advance(9, GOOD),
                  Doing(Drained(10), 9, Bare(true, ReleasePrepared(SESSION))))
  {
    hide StepPlanStart, StepConfirm, StepArm, StepReconcile;
  }

  lemma ReleaseTakes(codec: Codec)
    ensures Leads(codec, Doing(Drained(10), 9, Bare(true, ReleasePrepared(SESSION))), Advance(9, GOOD),
                  Releasing(Taken(), map[ACTION := CAPABILITY], TakeExecuting))
  {
    hide StepPlanStart, StepConfirm, StepArm, StepReconcile;
    var s := Doing(Drained(10), 9, Bare(true, ReleasePrepared(SESSION)));
    var s' := Step(codec, s, Advance(9, GOOD));
    assert s'.tasks.m[9].capabilities == map[ACTION := CAPABILITY];
    assert s'.prepared.m == map[];
    assert s'.place.m == map[ACTION := InTask(9, Capable)];
  }

  lemma ReleasePicks(codec: Codec)
    ensures Leads(codec, Releasing(Taken(), map[ACTION := CAPABILITY], TakeExecuting), Advance(9, GOOD),
                  Releasing(Taken(), map[ACTION := CAPABILITY], Idle))
    ensures Leads(codec, Releasing(Taken(), map[ACTION := CAPABILITY], Idle), Advance(9, PICK),
                  Releasing(Taken(), map[], Beginning(CAPABILITY)))
  {
    hide StepPlanStart, StepConfirm, StepArm, StepReconcile, StepRelease;
  }

  lemma ReleaseBegins(codec: Codec)
    ensures Leads(codec, Releasing(Taken(), map[], Beginning(CAPABILITY)), Advance(9, GOOD),
                  Releasing(Begun(), map[], Refusing(PERMIT)))
  {
    hide StepPlanStart, StepConfirm, StepArm, StepReconcile, StepRelease;
  }

  lemma ReleaseDenies(codec: Codec)
    ensures Leads(codec, Releasing(Begun(), map[], Refusing(PERMIT)), Advance(9, GOOD),
                  Releasing(Denied(), map[], Idle))
  {
    hide StepPlanStart, StepConfirm, StepArm, StepReconcile, StepRelease;
  }

  lemma {:induction false} DrainRuns(codec: Codec) returns (labels: seq<Label>)
    ensures Reaches(codec, labels, Releasing(Denied(), map[], Idle))
  {
    hide Step;
    DrainTakes(codec);
    ReleaseStarts(codec);
    ReleaseClears(codec);
    ReleaseTakes(codec);
    ReleasePicks(codec);
    ReleaseBegins(codec);
    ReleaseDenies(codec);
    var pending := Doing(Drained(10), 9, Bare(true, ReleasePending(SESSION)));
    var prepared := Doing(Drained(10), 9, Bare(true, ReleasePrepared(SESSION)));
    var executing := Releasing(Taken(), map[ACTION := CAPABILITY], TakeExecuting);
    var idle := Releasing(Taken(), map[ACTION := CAPABILITY], Idle);
    var beginning := Releasing(Taken(), map[], Beginning(CAPABILITY));
    var refusing := Releasing(Begun(), map[], Refusing(PERMIT));
    labels := ConfirmRuns(codec);
    labels := Then(codec, labels, Armed({}), DrainPublic(SESSION), Drained(9));
    labels := Then(codec, labels, Drained(9), StartRelease(SESSION), pending);
    labels := Then(codec, labels, pending, Advance(9, GOOD), prepared);
    labels := Then(codec, labels, prepared, Advance(9, GOOD), executing);
    labels := Then(codec, labels, executing, Advance(9, GOOD), idle);
    labels := Then(codec, labels, idle, Advance(9, PICK), beginning);
    labels := Then(codec, labels, beginning, Advance(9, GOOD), refusing);
    labels := Then(codec, labels, refusing, Advance(9, GOOD), Releasing(Denied(), map[], Idle));
  }

  /**
   * A confirmed action with its record present can reach the executor without
   * a permit, and the journal then denies it: some run, over a queue that hands
   * everything out once, delivers it and ends with a durable status of not
   * dispatched.
   */
  lemma DrainedIsDenied(codec: Codec) returns (labels: seq<Label>)
    ensures D.HandsOutOnce(labels)
    ensures var s := Run(codec, Init(false), labels);
            && ACTION in s.book.m && D.RecordOfSession(s, ACTION, SESSION)
            && Delivered(QUEUED, false) in s.log && T.AllDeliveries(s.log, ACTION) == 1
            && J.RecoveryOf(s.journal.entries, ACTION) == Some(J.KnownNotDispatched)
            && T.DurableReading(J.KnownNotDispatched, None) == T.ReadKnownNotDispatched
  {
    hide Step;
    labels := DrainRuns(codec);
    assert Denied().log[..0] == [];
  }
}
