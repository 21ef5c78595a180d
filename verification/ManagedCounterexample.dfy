/**
 * A record can expire while its action waits in the queue, and then an
 * executor is handed the action without a permit and the journal never hears
 * of it.
 */
module ManagedCounterexample {
  import opened Common
  import opened ManagedPayload
  import Utf8
  import opened Managed
  import opened ManagedAuthority
  import J = Journal
  import A = JournalApi
  import T = ManagedTheorems
  import D = ManagedDeliveries

  const SESSION: Uuid := 9
  const ACTION: Uuid := 3
  const CONFIRMATION: Uuid := 6
  const SURFACE := Authority("web", "tab", 5)
  const REQUEST := PlanRequest(SESSION, Click, ["done"])
  const ENVELOPE := J.Envelope(ACTION, SESSION, 5, J.PreconditionCut("cut"), "web", "tab", ["done"])
  const QUEUED := QueuedAction(ACTION, SESSION, Click)
  const PLAN := Plan(CONFIRMATION, QUEUED, None, SURFACE, ENVELOPE)
  const BOOKED := Booking(SESSION, SURFACE, Some(Activate), None, CONFIRMATION)
  const RECORD := Record(SESSION, SURFACE, ["done"], PendingExecutor)
  const LINEAGE := ("web", "tab")
  const GOOD := Choice(true, {}, 0, Some(SURFACE), Some(LINEAGE), Some(SURFACE), Some(LINEAGE), "cut", map[])

  const PLAN_SAW := PlanSaw(ACTION, Some(SURFACE), Some(SURFACE), Some(LINEAGE))
  const TOOK := ConfirmTook(ACTION, SESSION, CONFIRMATION, false)
  const SAW := ConfirmSaw(ACTION, Some(SURFACE), Some(LINEAGE))

  const GRANT := A.Grant(8, 3, "dispatch-prepared")
  const CAPABILITY := A.Capability(0, ACTION, GRANT)
  const STASHED := PreparedDispatch(SESSION, CAPABILITY)

  /** What is left of the record keeping of this one action, as it goes through the process. */
  function World(entries: nat, grants: map<Uuid, A.Grant>, minted: Uuid, pending: map<Uuid, Plan>,
                 prepared: map<Uuid, PreparedDispatch>, records: map<Uuid, Record>, place: Place): Sys
    requires entries <= 3
  {
    Sys(A.State(0, entries + 1, Entries()[..entries], grants, map[], map[]), None, Table(map[]), Table(pending),
        Table(prepared), Table(map[]), Table(records), [], None, Table(map[]), minted,
        Table(map[ACTION := BOOKED]), Table(map[ACTION := place]), [], [], {},
        if place == AtPending || place == InTask(2, Planned) then [PLAN_SAW] else [PLAN_SAW, TOOK, SAW])
  }

  function Entries(): seq<J.Entry> {
    [J.Entry(1, ACTION, J.IntentAdmitted(ENVELOPE)),
     J.Entry(2, ACTION, J.AuthorizationRecorded(5, true)),
     J.Entry(3, ACTION, J.DispatchPrepared(
        J.PreparationReceipt("dispatch-prepared", 2, J.PreconditionCut("cut"), "web", "tab")))]
  }

  /** A gated handler at work. */
  function Doing(s: Sys, tid: nat, t: Task): Sys { s.(tasks := Table(map[tid := t]), gate := Some(tid)) }

  function Armed(lapsed: set<Uuid>): Sys {
    World(3, map[ACTION := GRANT], 9, map[], map[ACTION := STASHED],
          if lapsed == {} then map[ACTION := RECORD] else map[],
          AtPrepared).(queue := [QUEUED], sent := [QUEUED], lapsed := lapsed)
  }

  /** An executor is at work on the queued action, whose record has expired. */
  function Taking(t: Task): Sys {
    Armed({ACTION}).(minted := 10, queue := [], tasks := Table(map[9 := t]))
  }

  /** It has been handed the action. */
  function Passed(): Sys {
    Armed({ACTION}).(minted := 10, queue := [], log := [Delivered(QUEUED, false)])
  }

  ghost predicate Leads(codec: Codec, s: Sys, l: Label, s': Sys) { Step(codec, s, l) == s' }

  // -------------------------------------------------------------------- the run

  lemma PlanStarts(codec: Codec)
    ensures var idle := Init(false).(minted := 3);
            && Leads(codec, Init(false), StartPlan(REQUEST), Doing(idle, 2, Bare(true, PlanPrunePending(REQUEST))))
            && Leads(codec, Doing(idle, 2, Bare(true, PlanPrunePending(REQUEST))), Advance(2, GOOD),
                     Doing(idle, 2, Bare(true, PlanPruneRecords(REQUEST))))
            && Leads(codec, Doing(idle, 2, Bare(true, PlanPruneRecords(REQUEST))), Advance(2, GOOD),
                     Doing(idle, 2, Bare(true, PlanCapacity(REQUEST))))
  {
    hide StepPlan, StepConfirmPlan, StepCapability, StepPermit, StepDrain, A.Record;
  }

  lemma {:induction false} ShortText(s: string)
    ensures |Utf8.Encode(s)| <= 4 * |s|
  {
    if s != "" { ShortText(s[1..]); }
  }

  lemma RequestIsValid()
    ensures ValidRefs(REQUEST.expected)
  {
    ShortText("done");
  }

  lemma PlanMakesRoom(codec: Codec)
    ensures var idle := Init(false).(minted := 3);
            Leads(codec, Doing(idle, 2, Bare(true, PlanCapacity(REQUEST))), Advance(2, GOOD),
                  Doing(idle, 2, Bare(true, PlanBind(REQUEST))))
  {
  }

  lemma PlanBinds(codec: Codec)
    ensures var idle := Init(false).(minted := 3);
            var bound := World(0, map[], 7, map[], map[], map[], InTask(2, Planned));
            Leads(codec, Doing(idle, 2, Bare(true, PlanBind(REQUEST))), Advance(2, GOOD),
                  Doing(bound, 2, HoldingPlan(PLAN, PlanIntent)))
  {
    hide ValidRefs, StepPlan;
    RequestIsValid();
  }

  lemma PlanIsAdmitted(codec: Codec)
    ensures var bound := World(0, map[], 7, map[], map[], map[], InTask(2, Planned));
            var admitted := World(1, map[], 7, map[], map[], map[], InTask(2, Planned));
            Leads(codec, Doing(bound, 2, HoldingPlan(PLAN, PlanIntent)), Advance(2, GOOD),
                  Doing(admitted, 2, HoldingPlan(PLAN, PlanOperation)))
  {
  }

  lemma PlanBindsOperation(codec: Codec)
    ensures var admitted := World(1, map[], 7, map[], map[], map[], InTask(2, Planned));
            Leads(codec, Doing(admitted, 2, HoldingPlan(PLAN, PlanOperation)), Advance(2, GOOD),
                  Doing(admitted, 2, HoldingPlan(PLAN, PlanPayload)))
  {
  }

  lemma PlanEnds(codec: Codec)
    ensures var admitted := World(1, map[], 7, map[], map[], map[], InTask(2, Planned));
            && Leads(codec, Doing(admitted, 2, HoldingPlan(PLAN, PlanPayload)), Advance(2, GOOD),
                     Doing(admitted, 2, HoldingPlan(PLAN, PlanInsert)))
            && Leads(codec, Doing(admitted, 2, HoldingPlan(PLAN, PlanInsert)), Advance(2, GOOD),
                     Waiting())
  {
  }

  lemma ConfirmStarts(codec: Codec)
    ensures Leads(codec, Waiting(), StartConfirm(SESSION, ACTION, CONFIRMATION),
                  Doing(Waiting().(minted := 8), 7, Bare(true, ConfirmConsume(SESSION, ACTION, CONFIRMATION))))
  {
  }

  lemma ConfirmConsumes(codec: Codec)
    ensures var consumed := World(1, map[], 8, map[], map[], map[], InTask(7, Planned));
            Leads(codec, Doing(Waiting().(minted := 8), 7, Bare(true, ConfirmConsume(SESSION, ACTION, CONFIRMATION))),
                  Advance(7, GOOD), Doing(consumed.(seen := [PLAN_SAW, TOOK]), 7, HoldingPlan(PLAN, ConfirmCheck)))
  {
    hide StepReconcile, StepRelease, StepArm;
  }

  lemma ConfirmLooks(codec: Codec)
    ensures var consumed := World(1, map[], 8, map[], map[], map[], InTask(7, Planned));
            Leads(codec, Doing(consumed.(seen := [PLAN_SAW, TOOK]), 7, HoldingPlan(PLAN, ConfirmCheck)),
                  Advance(7, GOOD),
                  Doing(consumed, 7, HoldingPlan(PLAN, ConfirmPrune)))
  {
    hide StepPlanStart, StepConfirm, StepRelease, StepArm, StepReconcile;
  }

  lemma ConfirmPrunes(codec: Codec)
    ensures var consumed := World(1, map[], 8, map[], map[], map[], InTask(7, Planned));
            Leads(codec, Doing(consumed, 7, HoldingPlan(PLAN, ConfirmPrune)), Advance(7, GOOD),
                  Doing(consumed, 7, HoldingPlan(PLAN, ConfirmCapacity)))
  {
    hide StepPlanStart, StepConfirm, StepRelease, StepArm, StepReconcile;
  }

  lemma ConfirmHasRoom(codec: Codec)
    ensures var consumed := World(1, map[], 8, map[], map[], map[], InTask(7, Planned));
            Leads(codec, Doing(consumed, 7, HoldingPlan(PLAN, ConfirmCapacity)), Advance(7, GOOD),
                  Doing(consumed, 7, HoldingPlan(PLAN, ConfirmMaterialize)))
  {
    hide StepPlanStart, StepConfirm, StepRelease, StepArm, StepReconcile;
  }

  lemma ConfirmMaterializes(codec: Codec)
    ensures var consumed := World(1, map[], 8, map[], map[], map[], InTask(7, Planned));
            Leads(codec, Doing(consumed, 7, HoldingPlan(PLAN, ConfirmMaterialize)), Advance(7, GOOD),
                  Doing(consumed, 7, HoldingPlan(PLAN, ConfirmAuthorize)))
  {
    hide StepPlanStart, StepConfirm, StepRelease, StepArm, StepReconcile;
  }

  lemma ConfirmAuthorizes(codec: Codec)
    ensures var consumed := World(1, map[], 8, map[], map[], map[], InTask(7, Planned));
            var authorized := World(2, map[], 8, map[], map[], map[], InTask(7, Planned));
            && Leads(codec, Doing(consumed, 7, HoldingPlan(PLAN, ConfirmAuthorize)), Advance(7, GOOD),
                     Doing(authorized, 7, HoldingPlan(PLAN, ConfirmPrepare(2))))
  {
    hide StepPlanStart, StepConfirm, StepRelease, StepArm, StepReconcile;
  }

  lemma JournalPrepares()
    ensures A.RecordPrepared(A.State(0, 3, Entries()[..2], map[], map[], map[]), ACTION,
                             Entries()[2].transition.preparation, true, 8)
         == (A.State(0, 4, Entries()[..3], map[ACTION := GRANT], map[], map[]), Some(CAPABILITY))
  {
    var es := Entries()[..2];
    assert !IsWhitespace("dispatch-prepared"[0]);
    assert J.AdmittedEnvelope(es, ACTION) == Some(ENVELOPE);
    assert J.LatestAuthorization(es, ACTION) == Some(Entries()[1]);
    assert es + [Entries()[2]] == Entries()[..3];
  }

  lemma ConfirmPrepares(codec: Codec)
    ensures var authorized := World(2, map[], 8, map[], map[], map[], InTask(7, Planned));
            var capable := World(3, map[ACTION := GRANT], 9, map[], map[], map[], InTask(7, Capable));
            && Leads(codec, Doing(authorized, 7, HoldingPlan(PLAN, ConfirmPrepare(2))), Advance(7, GOOD),
                     Doing(capable, 7, HoldingCapability(true, CAPABILITY, ConfirmStash(PLAN))))
  {
    hide StepPlanStart, StepConfirm, StepRelease, StepArm, StepReconcile, A.Record;
    JournalPrepares();
  }

  lemma ConfirmStashes(codec: Codec)
    ensures var capable := World(3, map[ACTION := GRANT], 9, map[], map[], map[], InTask(7, Capable));
            var stashed := World(3, map[ACTION := GRANT], 9, map[], map[ACTION := STASHED], map[], AtPrepared);
            && Leads(codec, Doing(capable, 7, HoldingCapability(true, CAPABILITY, ConfirmStash(PLAN))),
                     Advance(7, GOOD),
                     Doing(stashed, 7, Bare(true, ConfirmRecord(PLAN))))
  {
    hide StepPlanStart, StepConfirm, StepRelease, StepArm, StepReconcile;
  }

  lemma ConfirmRecords(codec: Codec)
    ensures var stashed := World(3, map[ACTION := GRANT], 9, map[], map[ACTION := STASHED], map[], AtPrepared);
            var recorded := stashed.(records := Table(map[ACTION := RECORD]));
            Leads(codec, Doing(stashed, 7, Bare(true, ConfirmRecord(PLAN))), Advance(7, GOOD),
                  Doing(recorded, 7, Bare(true, ConfirmEnqueue(PLAN))))
  {
    hide StepPlan, StepConfirmPlan, StepCapability, StepPermit, StepDrain, StepReconcile, StepRelease, StepArm;
  }

  lemma ConfirmEnds(codec: Codec)
    ensures var stashed := World(3, map[ACTION := GRANT], 9, map[], map[ACTION := STASHED], map[], AtPrepared);
            var recorded := stashed.(records := Table(map[ACTION := RECORD]));
            Leads(codec, Doing(recorded, 7, Bare(true, ConfirmEnqueue(PLAN))), Advance(7, GOOD), Armed({}))
  {
    hide StepReconcile, StepRelease, StepArm;
  }

  /** With the record gone, what the executor takes passes straight through. */
  lemma ExecutorTakes(codec: Codec)
    ensures Leads(codec, Armed({}), ExpireRecord(ACTION), Armed({ACTION}))
    ensures Leads(codec, Armed({ACTION}), StartArm(SESSION), Taking(Bare(false, ArmSnapshot(SESSION, [QUEUED]))))
  {
    hide Continue;
    assert [QUEUED][1..] == [];
    assert TakenOf([QUEUED], SESSION, TAKE_LIMIT) == [QUEUED];
    assert RemainderOf([QUEUED], SESSION, TAKE_LIMIT) == [];
    assert ACTION in {ACTION};
    var s := Step(codec, Armed({ACTION}), StartArm(SESSION));
    assert s.tasks == Table(map[9 := Bare(false, ArmSnapshot(SESSION, [QUEUED]))]);
  }

  lemma ExecutorSnapshots(codec: Codec)
    ensures Leads(codec, Taking(Bare(false, ArmSnapshot(SESSION, [QUEUED]))), Advance(9, GOOD),
                  Taking(Bare(false, Arming(Batch(SESSION, {}, QUEUED, [])))))
  {
    assert ACTION in {ACTION};
    var s := Taking(Bare(false, ArmSnapshot(SESSION, [QUEUED])));
    assert [QUEUED][1..] == [];
    var s2 := Step(codec, s, Advance(9, GOOD));
    assert s2.tasks.m[9].pc.batch.tracked == {};
  }

  lemma ExecutorDelivers(codec: Codec)
    ensures Leads(codec, Taking(Bare(false, Arming(Batch(SESSION, {}, QUEUED, [])))), Advance(9, GOOD), Passed())
  {
  }

  ghost predicate Reaches(codec: Codec, labels: seq<Label>, s: Sys) {
    Run(codec, Init(false), labels) == s && D.HandsOutOnce(labels)
  }

  lemma {:induction false} Then(codec: Codec, labels: seq<Label>, s: Sys, l: Label, s': Sys) returns (more: seq<Label>)
    requires Reaches(codec, labels, s) && Leads(codec, s, l, s') && !l.Redeliver?
    ensures Reaches(codec, more, s')
  {
    more := labels + [l];
    assert more[..|labels|] == labels;
  }

  function Waiting(): Sys { World(1, map[], 7, map[ACTION := PLAN], map[], map[], AtPending) }

  lemma {:induction false} PlanRuns(codec: Codec) returns (labels: seq<Label>)
    ensures Reaches(codec, labels, Waiting())
  {
    var idle := Init(false).(minted := 3);
    var bound := World(0, map[], 7, map[], map[], map[], InTask(2, Planned));
    var admitted := World(1, map[], 7, map[], map[], map[], InTask(2, Planned));
    PlanStarts(codec);
    PlanMakesRoom(codec);
    PlanBinds(codec);
    PlanIsAdmitted(codec);
    PlanBindsOperation(codec);
    PlanEnds(codec);
    labels := [];
    labels := Then(codec, labels, Init(false), StartPlan(REQUEST),
                   Doing(idle, 2, Bare(true, PlanPrunePending(REQUEST))));
    labels := Then(codec, labels, Doing(idle, 2, Bare(true, PlanPrunePending(REQUEST))), Advance(2, GOOD),
                   Doing(idle, 2, Bare(true, PlanPruneRecords(REQUEST))));
    labels := Then(codec, labels, Doing(idle, 2, Bare(true, PlanPruneRecords(REQUEST))), Advance(2, GOOD),
                   Doing(idle, 2, Bare(true, PlanCapacity(REQUEST))));
    labels := Then(codec, labels, Doing(idle, 2, Bare(true, PlanCapacity(REQUEST))), Advance(2, GOOD),
                   Doing(idle, 2, Bare(true, PlanBind(REQUEST))));
    labels := Then(codec, labels, Doing(idle, 2, Bare(true, PlanBind(REQUEST))), Advance(2, GOOD),
                   Doing(bound, 2, HoldingPlan(PLAN, PlanIntent)));
    labels := Then(codec, labels, Doing(bound, 2, HoldingPlan(PLAN, PlanIntent)), Advance(2, GOOD),
                   Doing(admitted, 2, HoldingPlan(PLAN, PlanOperation)));
    labels := Then(codec, labels, Doing(admitted, 2, HoldingPlan(PLAN, PlanOperation)), Advance(2, GOOD),
                   Doing(admitted, 2, HoldingPlan(PLAN, PlanPayload)));
    labels := Then(codec, labels, Doing(admitted, 2, HoldingPlan(PLAN, PlanPayload)), Advance(2, GOOD),
                   Doing(admitted, 2, HoldingPlan(PLAN, PlanInsert)));
    labels := Then(codec, labels, Doing(admitted, 2, HoldingPlan(PLAN, PlanInsert)), Advance(2, GOOD), Waiting());
  }

  lemma {:induction false} ConfirmRuns(codec: Codec) returns (labels: seq<Label>)
    ensures Reaches(codec, labels, Armed({}))
  {
    hide Step;
    var pending := Waiting().(minted := 8);
    var consumed := World(1, map[], 8, map[], map[], map[], InTask(7, Planned));
    var taken := consumed.(seen := [PLAN_SAW, TOOK]);
    var authorized := World(2, map[], 8, map[], map[], map[], InTask(7, Planned));
    var capable := World(3, map[ACTION := GRANT], 9, map[], map[], map[], InTask(7, Capable));
    var stashed := World(3, map[ACTION := GRANT], 9, map[], map[ACTION := STASHED], map[], AtPrepared);
    var recorded := stashed.(records := Table(map[ACTION := RECORD]));
    labels := PlanRuns(codec);
    ConfirmStarts(codec);
    ConfirmConsumes(codec);
    ConfirmLooks(codec);
    ConfirmPrunes(codec);
    ConfirmHasRoom(codec);
    ConfirmMaterializes(codec);
    ConfirmAuthorizes(codec);
    ConfirmPrepares(codec);
    ConfirmStashes(codec);
    ConfirmRecords(codec);
    ConfirmEnds(codec);
    labels := Then(codec, labels, Waiting(), StartConfirm(SESSION, ACTION, CONFIRMATION),
                   Doing(pending, 7, Bare(true, ConfirmConsume(SESSION, ACTION, CONFIRMATION))));
    labels := Then(codec, labels, Doing(pending, 7, Bare(true, ConfirmConsume(SESSION, ACTION, CONFIRMATION))),
                   Advance(7, GOOD), Doing(taken, 7, HoldingPlan(PLAN, ConfirmCheck)));
    labels := Then(codec, labels, Doing(taken, 7, HoldingPlan(PLAN, ConfirmCheck)), Advance(7, GOOD),
                   Doing(consumed, 7, HoldingPlan(PLAN, ConfirmPrune)));
    labels := Then(codec, labels, Doing(consumed, 7, HoldingPlan(PLAN, ConfirmPrune)), Advance(7, GOOD),
                   Doing(consumed, 7, HoldingPlan(PLAN, ConfirmCapacity)));
    labels := Then(codec, labels, Doing(consumed, 7, HoldingPlan(PLAN, ConfirmCapacity)), Advance(7, GOOD),
                   Doing(consumed, 7, HoldingPlan(PLAN, ConfirmMaterialize)));
    labels := Then(codec, labels, Doing(consumed, 7, HoldingPlan(PLAN, ConfirmMaterialize)), Advance(7, GOOD),
                   Doing(consumed, 7, HoldingPlan(PLAN, ConfirmAuthorize)));
    labels := Then(codec, labels, Doing(consumed, 7, HoldingPlan(PLAN, ConfirmAuthorize)), Advance(7, GOOD),
                   Doing(authorized, 7, HoldingPlan(PLAN, ConfirmPrepare(2))));
    labels := Then(codec, labels, Doing(authorized, 7, HoldingPlan(PLAN, ConfirmPrepare(2))), Advance(7, GOOD),
                   Doing(capable, 7, HoldingCapability(true, CAPABILITY, ConfirmStash(PLAN))));
    labels := Then(codec, labels, Doing(capable, 7, HoldingCapability(true, CAPABILITY, ConfirmStash(PLAN))),
                   Advance(7, GOOD), Doing(stashed, 7, Bare(true, ConfirmRecord(PLAN))));
    labels := Then(codec, labels, Doing(stashed, 7, Bare(true, ConfirmRecord(PLAN))), Advance(7, GOOD),
                   Doing(recorded, 7, Bare(true, ConfirmEnqueue(PLAN))));
    labels := Then(codec, labels, Doing(recorded, 7, Bare(true, ConfirmEnqueue(PLAN))), Advance(7, GOOD), Armed({}));
  }

  lemma NothingDispatched()
    ensures J.CountOf(Entries()[..3], ACTION, J.IsDispatchReceipt) == 0
  {
    var es := Entries()[..3];
    assert es[..2] == es[..1] + [es[1]];
    assert J.CountOf(es[..1], ACTION, J.IsDispatchReceipt) == 0;
    J.CountAppend(es[..1], es[1], ACTION, J.IsDispatchReceipt);
  }

  lemma {:induction false} TakingRuns(codec: Codec) returns (labels: seq<Label>)
    ensures Reaches(codec, labels, Passed())
  {
    var snapshotting := Taking(Bare(false, ArmSnapshot(SESSION, [QUEUED])));
    var arming := Taking(Bare(false, Arming(Batch(SESSION, {}, QUEUED, []))));
    ExecutorTakes(codec);
    ExecutorSnapshots(codec);
    ExecutorDelivers(codec);
    labels := ConfirmRuns(codec);
    labels := Then(codec, labels, Armed({}), ExpireRecord(ACTION), Armed({ACTION}));
    labels := Then(codec, labels, Armed({ACTION}), StartArm(SESSION), snapshotting);
    labels := Then(codec, labels, snapshotting, Advance(9, GOOD), arming);
    labels := Then(codec, labels, arming, Advance(9, GOOD), Passed());
  }

  /**
   * Without the tracking condition a confirmed action can be handed over
   * without a permit: some run, over a queue that hands everything out once,
   * delivers a planned and confirmed action though no permit was ever made out
   * and the journal holds no receipt of a dispatch.
   */
  lemma UntrackedDeliveryHappens(codec: Codec) returns (labels: seq<Label>)
    ensures D.HandsOutOnce(labels)
    ensures var s := Run(codec, Init(false), labels);
            && ACTION in s.book.m && Delivered(QUEUED, false) in s.log && T.AllDeliveries(s.log, ACTION) == 1
            && Deliveries(s.log, ACTION) == 0 && J.CountOf(s.journal.entries, ACTION, J.IsDispatchReceipt) == 0
  {
    labels := TakingRuns(codec);
    NothingDispatched();
    assert Passed().log[..0] == [];
  }
}
