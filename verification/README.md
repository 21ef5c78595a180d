# LocalView verification

A Dafny model of the decision logic of LocalView, with proofs. `dafny verify dfyconfig.toml` checks all of it.

**Managed consequential actions** (`Managed*`, `Journal*`). A plan becomes a one-shot confirmation, then a prepared
capability, an executor permit, a dispatch receipt, a fresh observation and a commit. `Managed` is a step machine in
which every handler is a task that advances by one critical section at a time, so plan, confirm, release, arm,
completion and reconciliation interleave freely, with only the plan gate between them; records expire and the process
may restart at any point. The queue may lose an action, and a drain of its session may hand it out without arming it,
at any point too. One label, `Redeliver`, is no step of the live queue: it hands out again what was sent before, and
makes the environment of the safety theorems stronger than the real one. `ManagedAuthority` holds the invariant about
where the dispatch authority of an action is, `ManagedSteps`, `ManagedFacts`, `ManagedFactSteps`, `ManagedLimits`,
`ManagedConfirm` and `ManagedNarrative` prove what each step keeps, and `ManagedTheorems` states what follows for
whole runs. `ManagedDeliveries` counts deliveries for the queue as it is, `ManagedCounterexample` and
`ManagedDrainCounterexample` show two that go without a permit, `ManagedProgress` and `ManagedConfirmProgress` say
what handlers achieve undisturbed, `ManagedRelease` what a release leaves behind, and `ManagedTables` gives the tables
of the control handle as the mutable maps they are. `Journal` and `JournalApi` model the consequential journal itself,
`JournalRules` tells its rules by the entries alone, `JournalObject` models it as an object with its methods,
`JournalRecovery` as a file that survives a crash in the middle of an append.

**UX contracts** (`Contracts`, `ContractRegistry`, `LiveContracts`, `ContractSummary`): what predicates demand,
conflicts, inheritance, facts compiled from evidence, and three-valued judgement on partial facts.

**Causal graph** (`CausalWalks`, `Causal`, `CausalGraph`, `CausalCounterexample`, `Correlation`): what a graph calls for
told of its walks alone, the bounded blast-radius search and its invariants, merging of edges, and the correlation of
requests with interface changes.

**Stores** (`Artifacts`, `CanonicalJson`, `ContentStore`, `Baseline`): the budgeted artifact store, canonical JSON, the
content-addressed store, and comparing a run with its retained baseline.

**Capture** (`Capture`): progressive targets around an element.

**Stylesheets** (`CssLexer`, `CssTokens`, `CssBoundaries`, `CssPositions`, `CssText`, `CssCollapse`, `CssInk`,
`CssNormalize`, `CssGrammar`, `CssPlaces`, `CssAccepts`, `CssParser`): the declaration locator, from one lexical
definition of which bytes are code and a second account of it by tokens and counts, over what normalising keeps and
independent accounts of what is written where and of what is read at all, up to the parser and its positions.

`Common`, `Text` and `Utf8` hold shared vocabulary: optional values, string order, sorting of sets, UTF-8.

## Conventions

- Clocks, randomness, I/O outcomes, surface reports and evaluator verdicts are parameters: `Choice` in the protocol,
  `durable` and `minted` in the journal, `Io` in the artifact store. Nothing is assumed of them; every draw of a UUID
  is fresh.
- SHA-256, HMAC and serialisation are function parameters. A journal line is assumed to decode to the entry it encodes,
  and, for a failed append, to nothing with part of another line before it. The payload commitment is an injective
  datatype; a content hash is assumed injective only where a lemma says so in its `requires`; payload decoding need not
  undo encoding.
- Six fields of `Managed.Sys` are history that no handler reads: `book`, `place`, `sent`, `log`, `lapsed` and `seen`, and
  so is `CausalGraph.history`.
- `hide` names the definitions a proof does without, which keeps every proof obligation small.

## Where the code does not do what one might expect

- A record is kept for five minutes, a queued action for as long as the queue holds it. Once the record is gone the
  executor is handed the action without a permit (`ManagedCounterexample.UntrackedDeliveryHappens`). The session-wide
  drain of the same queue arms nothing, so it hands out any queued action without a permit, and a later release even
  writes that it was not dispatched (`ManagedDrainCounterexample.DrainedIsDenied`).
  `ManagedDeliveries.UntrackedDeliveryIsExact` says exactly when an action goes without a permit,
  `ManagedDeliveries.NotDispatchedIsTrue` exactly when the durable status is right all the same,
  `ManagedDeliveries.DeliveredAtMostOnce` that it is still handed over once at most, and
  `ManagedTheorems.TrackedDispatchAtMostOnce` what holds where everything is tracked.
- An append that fails is not undone on disk. If it left a single byte and the process goes on to append, the journal
  cannot be opened again (`JournalRecovery.FailedAppendInTheMiddle`).
- The depth the blast radius reports is the length of a real walk, but not always of a shortest one
  (`CausalCounterexample.ReportedDepthNeedNotBeShortest`), and the confidence not always that of the strongest
  (`CausalCounterexample.ConfidenceNeedNotBeStrongest`): a node is not looked at again when a longer, stronger walk
  arrives. `CausalWalks.DepthIsLeast` and `CausalWalks.ConfidenceIsStrongest` say exactly when they are, on the edges,
  start, depth and threshold alone.
- A candidate stored as a baseline and seen again matches within the same budget (`Baseline.StoreThenCompare`); opening
  under a smaller one may evict the file, and the comparison is then incompatible (`Baseline.NextRun`).
- Between a carriage return and its line feed two byte offsets share a line and column; no declaration starts there
  (`CssPositions.PositionsIncrease`, `CssParser.OrderIsPlace`).

## Model

| member | source | states |
|---|---|---|
| ManagedTheorems.DispatchAtMostOnce | crates/control/src/managed_consequential.rs:989-1064 | in every interleaved run, whatever the queue redelivers: an action is delivered under a permit at most once, has at most one dispatch receipt, and no receipt denies a delivery that was made |
| ManagedTheorems.TrackedDispatchAtMostOnce | crates/control/src/managed_consequential.rs:989-1010 | where no planned action has lost its record when its batch is snapshotted, and none is taken by the drain that arms nothing, every delivery of it is the one permitted delivery, so there is at most one in all |
| ManagedDeliveries.DeliveredAtMostOnce | crates/control/src/managed_consequential.rs:989-1064 | with a queue that hands out what it was given once, every action reaches the executor at most once in all, with a permit or without, whatever becomes of its record |
| ManagedDeliveries.UntrackedDeliveryIsExact | crates/control/src/runtime.rs:736-748 | over any run, an action is handed over without a permit exactly when this drain took it off the queue, or some snapshot of its batch found no record of the session for it and that handler later came to it |
| ManagedDeliveries.NotDispatchedIsTrue | crates/control/src/managed_consequential.rs:902-932 | when the durable status says not dispatched, the executor never got the action under a permit, and never got it at all exactly when it went neither of the two ways past arming |
| ManagedDrainCounterexample.DrainedIsDenied | crates/control/src/runtime.rs:736-748 | a run in which a confirmed action with its record present is drained without a permit, and the release of its session then writes that it was not dispatched |
| ManagedCounterexample.UntrackedDeliveryHappens | crates/control/src/managed_consequential.rs:989-1010 | a run in which the queue hands out each action once, and yet a confirmed, recorded action whose record has expired reaches the executor without a permit and leaves no dispatch receipt |
| ManagedTheorems.TablesDisjointAndBounded | crates/control/src/managed_consequential.rs:309-320 | in every reachable state pending, prepared and executing have disjoint action ids, with at most 64 plans and 128 records |
| ManagedTheorems.ConfirmationAllOrNothing | crates/control/src/managed_consequential.rs:538-797 | the step in which a handler that consumed a confirmation returns leaves the action prepared, queued and recorded (or its record already expired), or in no table, record or queue |
| ManagedTheorems.ArmedOnItsSurface | crates/control/src/managed_consequential.rs:590-618 | in every reachable state, an action in the prepared table, queued with its record, or delivered under a permit was confirmed under its own reference and session by a handler whose surface check saw exactly the authority and lineage its plan was made on |
| ManagedTheorems.RestartEndsAuthority | crates/control/src/managed_consequential.rs:144-173 | after a restart no action planned before it is in any table or delivered under a permit, in any later run |
| ManagedTheorems.SpentThroughRun | crates/control/src/managed_consequential.rs:204-248 | dispatch authority that is used up stays used up, and delivers nothing more, through every continuation |
| ManagedTheorems.DeliveredPayloadIsBound | crates/control/src/managed_consequential.rs:1012-1027 | a payload-bearing action handed over under a permit has its binding in the journal, and encodes to exactly the bytes bound at plan time, whether or not decoding undoes encoding |
| ManagedPayload.PayloadComesBack | crates/control/src/managed_consequential.rs:1617-1687 | a payload split off at plan time and bound to its action is put together again at confirmation exactly as it was, and passes the check at dispatch, wherever decoding undoes encoding |
| ManagedPayload.AcceptedIsExact | crates/control/src/managed_consequential.rs:1689-1721 | an action is accepted exactly if it is a click or focus, text or a key with modifiers within their UTF-8 limits and without a zero byte, or a scroll within bounds that goes somewhere |
| ManagedPayload.BindingDecides | crates/control/src/managed_consequential.rs:1661-1760 | a payload is put together again exactly as the acceptable action it decodes to under its own binding; an action is let through at dispatch exactly if it carries no payload or its own encoding is what was bound |
| ManagedTheorems.VerifiedExpectedIsCommitted | crates/control/src/managed_consequential.rs:1309-1391 | a verified-expected status implies the journal committed the action, from an earlier receipt that verified every admitted postcondition in an observation with the planned surface authority before and after; the durable status agrees |
| ManagedTheorems.ArmedActionGetsItsPermit | crates/control/src/managed_consequential.rs:1029-1064 | the journal never refuses a capability that is still in the prepared table |
| ManagedTheorems.StepSound | crates/control/src/managed_consequential.rs:975-1118 | every step of every handler keeps all invariants: authority, bindings, records, journal validity, capacity and all-or-nothing confirmation |
| ManagedTheorems.RunSound | crates/control/src/managed_consequential.rs:257-798 | so every reachable state has them |
| ManagedSteps.StepKeeps | crates/control/src/managed_consequential.rs:204-248 | each step moves the dispatch authority of an action forward only, and keeps tables, tasks, grants, deliveries and receipts in agreement about where it is |
| ManagedFactSteps.StepFacts | crates/control/src/managed_consequential.rs:460-484 | each step keeps queue, bindings, plans, records, deliveries and observations tied to what was fixed at plan time, and every record to the envelope the journal admitted |
| ManagedLimits.StepKeepsValid | crates/live-bridge/src/consequential_journal/base.rs:484-516 | no handler ever takes the journal out of its own invariant |
| ManagedLimits.StepWithin | crates/control/src/managed_consequential.rs:486-495 | each step keeps both capacities although check and insertion are separate critical sections |
| ManagedConfirm.SpentForGood | crates/control/src/managed_consequential.rs:740-797 | no step gives authority back to an action that has used it up |
| ManagedConfirm.StepForward | crates/control/src/managed_consequential.rs:538-575 | the authority of an action never goes back a stage |
| ManagedNarrative.AdvanceNarrates | crates/control/src/managed_consequential.rs:1029-1064 | a step of a handler logs at most one event, and a delivery exactly when an armed or untracked head of a batch is handed over |
| ManagedProgress.ArmedIsDelivered | crates/control/src/managed_consequential.rs:1012-1064 | left alone, a handler delivers a tracked, verified, prepared action under a permit in four steps, files the permit for its session and writes nothing to the journal |
| ManagedProgress.CompletionIsRecorded | crates/control/src/managed_consequential.rs:1067-1118 | an executor's report becomes the dispatch receipt of its action, full if it succeeded and ambiguous if not; only a failed append leaves the action durably prepared |
| ManagedProgress.ReconcileConcludes | crates/control/src/managed_consequential.rs:1120-1403 | in every reachable state, for an action the journal lets be observed on an unchanged surface: six undisturbed steps end in the status the verdicts call for, and commit the action exactly when every contract passed |
| ManagedConfirmProgress.RequestIsPlanned | crates/control/src/managed_consequential.rs:257-536 | in every reachable state: left alone for eight steps on a surface that stays, with room, valid references and an action that can be split, a plan request ends as a pending plan of that action, session, surface and payload binding, and nothing else changes |
| ManagedConfirmProgress.ConfirmationArms | crates/control/src/managed_consequential.rs:538-797 | in every reachable state: left alone for ten steps on the planned surface, with room, a payload that can be filled in and appends that last, a good confirmation ends with the action authorised and prepared in the journal, its capability in the prepared table, recorded and queued |
| ManagedRelease.ReleaseClearsItsSession | crates/control/src/managed_consequential.rs:199-248 | in any run, while a release drains and when it is done, no plan and no capability of its session is in a table, and the step that takes the permits leaves none of its session |
| ManagedRelease.ReleaseSpares | crates/control/src/managed_consequential.rs:199-248 | no step of a release touches a plan, capability or permit of another session |
| ManagedTables.ControlTables.constructor | crates/control/src/managed_consequential.rs:144-173 | a configured control starts with the tables of the initial protocol state |
| ManagedTables.ControlTables.PrunePending | crates/control/src/managed_consequential.rs:1502-1523 | removes exactly the expired plans, as the protocol's step does |
| ManagedTables.ControlTables.ConsumeConfirmation | crates/control/src/managed_consequential.rs:538-575 | consumes a plan exactly when it exists, is of the session, has not expired and is confirmed by its own reference; an expired one is dropped, any other stays |
| ManagedTables.ControlTables.ReleaseSessionPending | crates/control/src/managed_consequential.rs:199-203 | release drops exactly the session's plans |
| ManagedTables.ControlTables.TakeSessionPrepared | crates/control/src/managed_consequential.rs:204-214 | release takes exactly the session's prepared capabilities |
| ManagedTables.ControlTables.TakeSessionExecuting | crates/control/src/managed_consequential.rs:215-225 | release takes exactly the session's permits |
| ManagedTables.ControlTables.TrackedIds | crates/control/src/managed_consequential.rs:989-1004 | tracks exactly the actions of the batch that have a record of the session |
| ManagedTables.ControlTables.TakeForArming | crates/control/src/managed_consequential.rs:1029-1035 | the capability leaves its table whatever its session, comes out exactly when the session agrees, and no other table changes |
| ManagedTables.ControlTables.TakeForCompletion | crates/control/src/managed_consequential.rs:1087-1092 | the permit leaves its table whatever its session, comes out exactly when the session agrees, and no other table changes |
| ManagedTables.ControlTables.RollBack | crates/control/src/managed_consequential.rs:759-761 | a failed enqueue leaves the action without a record and without a prepared entry, and hands back the capability there was |
| ManagedDraft.DraftsAreWellFormed | crates/live-bridge/src/postcondition_reconciliation.rs:104-230 | reconciliation classifies every admitted contract exactly once, with evidence for every decisive one, and derives the verdict from the partition; expected means all passed, unexpected that one failed |
| Journal.TransitionsAdvance | crates/live-bridge/src/consequential_journal/base.rs:1368-1487 | no accepted transition moves an action back, only re-authorisation and re-observation stay put, and nothing leaves the committed state |
| Journal.AtMostOneDispatchReceipt | crates/live-bridge/src/consequential_journal/base.rs:1368-1487 | any journal that loads, legacy entries included, holds at most one preparation and one dispatch receipt per action |
| Journal.CommitMeansProven | crates/live-bridge/src/consequential_journal/base.rs:1582-1705 | a committed or verified action has an earlier receipt whose observation follows its dispatch and proves every admitted postcondition with its own evidence |
| JournalRules.AllowedIsJustified | crates/live-bridge/src/consequential_journal/base.rs:1368-1705 | an entry may be written, or replayed, exactly when what stands in the journal calls for it: the last entry of its action, the first admission, the last dispatch, and what the entry repeats of them; a receipt must classify the admitted contracts, each once, with evidence for every decided one |
| JournalRules.HistoryIsJustified | crates/live-bridge/src/consequential_journal/base.rs:1217-1333 | a journal loads exactly when every entry is so justified by those before it, in unbroken sequence |
| JournalRules.RecoveryIsLatest | crates/live-bridge/src/consequential_journal/base.rs:1707-1769 | the state of an action is what its latest entry means, and there is none exactly without an entry |
| JournalApi.RecordKeepsValid | crates/live-bridge/src/consequential_journal/base.rs:1109-1157 | recording keeps every live grant tied to an action that is still durably prepared |
| JournalApi.PrepareKeepsValid | crates/live-bridge/src/consequential_journal/base.rs:596-632 | a prepared admission mints a grant only for a durably prepared action, whether or not the journal holds replayed legacy entries |
| JournalApi.BeginKeepsValid | crates/live-bridge/src/consequential_journal/base.rs:634-710 | turning a capability into a permit keeps prepared and execution grants disjoint and honest |
| JournalApi.LinearizeKeepsValid | crates/live-bridge/src/consequential_journal/base.rs:771-835 | writing a receipt uses the permit's grant up first, whatever becomes of the append |
| JournalApi.LiveTokensAreHonoured | crates/live-bridge/src/consequential_journal/base.rs:634-710 | a live capability always becomes a permit, and a live permit a receipt unless the append fails |
| JournalApi.TokensAreOneShot | crates/live-bridge/src/consequential_journal/base.rs:771-835 | a capability or permit is good for one call, and for one journal instance only |
| JournalObject.RecoveryStateFor | crates/live-bridge/src/consequential_journal/base.rs:1707-1769 | the replay loop finds the state the latest entry of the action leaves it in |
| JournalObject.AdmittedEnvelopeFor | crates/live-bridge/src/consequential_journal/base.rs:1159-1172 | finds the envelope of the first admission |
| JournalObject.CauseFor | crates/live-bridge/src/consequential_journal/base.rs:1174-1198 | finds the latest receipt or preparation, newest first |
| JournalObject.DurablePreparationMatches | crates/live-bridge/src/consequential_journal/base.rs:1200-1215 | true exactly when a preparation entry with this sequence and reference exists |
| JournalObject.ConsequentialJournal.constructor | crates/live-bridge/src/consequential_journal/base.rs:491-515 | opening over a replayed history gives a valid journal with its entries and no live grant, so nothing minted before is good any more |
| JournalObject.ConsequentialJournal.AppendValidated | crates/live-bridge/src/consequential_journal/base.rs:1109-1157 | the entries grow by this one entry, with the next sequence, exactly when the transition is valid and the append durable, and are untouched otherwise; no grant changes and the journal stays valid |
| JournalObject.ConsequentialJournal.RecordDispatchPrepared | crates/live-bridge/src/consequential_journal/base.rs:596-632 | a capability comes out exactly when the preparation was valid and durable, and is redeemable at once for an action that had none; a refusal changes nothing |
| JournalObject.ConsequentialJournal.BeginDispatch | crates/live-bridge/src/consequential_journal/base.rs:634-710 | a permit comes out exactly when the capability was unused and of this instance, is executable and names the same preparation; the capability is spent either way and no entry is written |
| JournalObject.ConsequentialJournal.AbandonDispatchExecution | crates/live-bridge/src/consequential_journal/base.rs:712-769 | succeeds exactly on a live permit, which is gone afterwards, and writes no entry |
| JournalObject.ConsequentialJournal.RecordDispatchLinearized | crates/live-bridge/src/consequential_journal/base.rs:771-835 | the permit is gone whatever happens; exactly one receipt is written, and the action moves to the state its result calls for, exactly when the permit was live and the append durable |
| JournalObject.ConsequentialJournal.BeginPostconditionObservation | crates/live-bridge/src/consequential_journal/base.rs:837-922 | an observation opens exactly for an admitted action with a cause, in a state that can be observed, with no live capability, permit or observation; its grant names the admitted session and lineage, the cause and a cut minted after it; a refusal changes nothing |
| JournalObject.ConsequentialJournal.AbandonPostconditionObservation | crates/live-bridge/src/consequential_journal/base.rs:924-962 | succeeds exactly on a live observation, which is closed afterwards, while every other stays as it was |
| JournalObject.ConsequentialJournal.CompletePostconditionObservation | crates/live-bridge/src/consequential_journal/base.rs:964-1045 | the observation is closed whatever the snapshot, and no other; a receipt comes out exactly when it was live and the snapshot is of its lineage and cut with a reference, and says just that of an action with no dispatch authority |
| JournalObject.ConsequentialJournal.RecordPostconditionReceipt | crates/live-bridge/src/consequential_journal/base.rs:1047-1083 | one entry is written, under the next sequence, exactly when the receipt is valid and the append durable; accepted as expected it proves every admitted postcondition; a refusal changes nothing |
| JournalRecovery.LoadAndRepair | crates/live-bridge/src/consequential_journal/base.rs:1217-1333 | cuts the file after its last newline and replays every whole line, or fails |
| JournalRecovery.LoadedIsHistory | crates/live-bridge/src/consequential_journal/base.rs:1217-1333 | whatever loads is a history in which every entry was valid where it stands |
| JournalRecovery.AppendedReplays | crates/live-bridge/src/consequential_journal/base.rs:1363-1487 | what was accepted when written is accepted when replayed |
| JournalRecovery.FileReplays | crates/live-bridge/src/consequential_journal/base.rs:1217-1333 | the file of a history loads to exactly that history |
| JournalRecovery.CrashDuringAppend | crates/live-bridge/src/consequential_journal/base.rs:1335-1361 | however many bytes of an append reached the disk before the process died, the journal loads: without the entry if any byte is missing, with it if none is |
| JournalRecovery.FailedAppendInTheMiddle | crates/live-bridge/src/consequential_journal/base.rs:1144-1156 | an append that fails while the process goes on, with later entries behind it: the journal still loads, to exactly the later history, precisely when the failed append left no byte at all |
| Contracts.ConflictIsExact | crates/contracts/src/lib.rs:185-194 | two predicates are reported as conflicting exactly when no facts make both pass |
| Contracts.JointlySatisfiable | crates/contracts/src/lib.rs:140-194 | any list of predicates: some facts make all of them pass exactly when no two conflict |
| ContractRegistry.CompiledContractsAreSatisfiable | crates/contracts/src/autonomous.rs:67-110 | a set compiles without conflict exactly when, for every scope, one page meets all contracts of that scope |
| ContractRegistry.EffectiveContract | crates/contracts/src/lib.rs:106-118 | inheritance succeeds exactly when the chain of parents is finite and registered; each scope dimension and the provenance is the first nonempty one along it; every failure names its reason |
| ContractRegistry.WholeChainSucceeds | crates/contracts/src/lib.rs:106-118 | a finite registered chain is the one the climb goes along |
| ContractRegistry.Registry.Insert | crates/contracts/src/lib.rs:102-102 | files a contract under its own id |
| ContractRegistry.Registry.EffectiveContract | crates/contracts/src/lib.rs:106-118 | the loop with its visited set computes the inherited contract, on any registry |
| ContractRegistry.Registry.FindClashes | crates/contracts/src/autonomous.rs:85-98 | lists exactly the pairs of one scope whose predicates conflict |
| ContractRegistry.Registry.ResolveAll | crates/contracts/src/autonomous.rs:71-83 | resolves the ids in order and stops at the first that fails, with its reason |
| ContractRegistry.Registry.CompileAutonomousSubset | crates/contracts/src/autonomous.rs:67-110 | compiles the requested ids, or all, in order, or reports the first failing id or every clash |
| LiveContracts.CompileFactPayload | crates/contracts/src/autonomous.rs:165-248 | takes every field of a payload as the evidence laws want it, whatever types it holds |
| LiveContracts.TakeEvidence | crates/contracts/src/autonomous.rs:113-152 | only admissible evidence changes what is known, nothing known is forgotten, other evidence is listed under the one reason against it, and a piece is cited exactly when it tells something new |
| LiveContracts.CompileRuntimeFacts | crates/contracts/src/autonomous.rs:113-152 | compiles the evidence in order, so what it knows is what the evidence laws say |
| LiveContracts.InadmissibleChangesNothing | crates/contracts/src/autonomous.rs:113-152 | tainted, stale and non-authoritative evidence changes no fact and is never cited, and is listed under exactly the reason against it |
| LiveContracts.FactsAreReported | crates/contracts/src/autonomous.rs:165-248 | a selector, an issue code, a metric, a value or the completeness of a domain is known exactly when some admissible evidence tells it in its own field |
| LiveContracts.MetricsAreLastReported | crates/contracts/src/autonomous.rs:165-248 | a metric has the value of its last admissible report, and none without one |
| LiveContracts.ValuesAreLastReported | crates/contracts/src/autonomous.rs:165-248 | a value is that of the last admissible evidence that reports it |
| LiveContracts.CountIsLargest | crates/contracts/src/autonomous.rs:165-248 | the count of unnamed interactive elements is the largest admissible evidence gives, and none without any |
| LiveContracts.LiveVerdictIsExact | crates/contracts/src/autonomous.rs:250-344 | pass or fail exactly when every page consistent with the evidence gives it; unknown exactly when they all are unknown or two disagree; excepted exactly when the exception applies |
| ContractSummary.EvaluateCompiledContracts | crates/contracts/src/autonomous.rs:346-381 | judges every compiled contract in order |
| ContractSummary.SummaryCounts | crates/contracts/src/autonomous.rs:346-381 | each contract has its row; passed and excepted count the rows of that verdict, and every other row is in exactly one bucket |
| ContractSummary.Buckets | crates/contracts/src/autonomous.rs:346-381 | an id is among hard failures, hard unknowns or soft warnings exactly when a row of that kind was recorded for it |
| ContractSummary.ClearSummaryIsSound | crates/contracts/src/autonomous.rs:346-381 | no hard failures and unknowns means every page consistent with the evidence meets every hard contract that is not excepted; a hard failure means every such page fails it |
| Causal.RelaxKeeps | crates/causal/src/lib.rs:108-137 | following an edge keeps every label the first walk to its node so far, every impact the best way so far, and walks waiting in their order |
| Causal.SearchFinds | crates/causal/src/lib.rs:90-148 | an empty queue means the labels are the first walks of the graph and the impacts exactly what the graph alone calls for |
| CausalGraph.SearchFrom | crates/causal/src/lib.rs:90-148 | ends on any graph, cyclic or not, with exactly the nodes some nonempty walk of at most the given depth reaches, each by the strongest way to it, a way being the first walk to some node and one more edge, and by the first of equally strong ones |
| CausalGraph.CausalGraph.AddEdge | crates/causal/src/lib.rs:68-88 | over any run of additions: an edge is refused exactly without its endpoints; one listed before stays in its place with the greater confidence and all evidence of both, increasing; any other goes to the end; so each edge has the greatest confidence ever added for it and all evidence ever added |
| CausalGraph.CausalGraph.BlastRadius | crates/causal/src/lib.rs:90-148 | reports each impact of the search once, nearer first, then stronger, then by id; nothing from an unknown start |
| CausalGraph.SortImpacts | crates/causal/src/lib.rs:140-147 | sorts without losing or inventing an impact |
| CausalGraph.Report | crates/causal/src/lib.rs:140-147 | lists the best impact of every node, in order |
| Text.AtMostIsLexicographic | crates/causal/src/lib.rs:140-147 | one string comes before another exactly when it is its beginning or has the smaller character where they first differ |
| CausalWalks.FirstExists | crates/causal/src/lib.rs:130-136 | every node a walk reaches has a first walk: of its shortest ones the one that always takes the edge listed earliest |
| CausalWalks.FoundIsUnique | crates/causal/src/lib.rs:90-148 | the edges in their order, the start, the depth and the threshold determine every impact, its relation and evidence included |
| CausalWalks.DepthIsLeast | crates/causal/src/lib.rs:114-129 | the reported depth of a node is the length of a shortest walk to it exactly when no way to it is stronger than every shortest way, a condition on the graph, start, depth and threshold alone |
| CausalWalks.ConfidenceIsStrongest | crates/causal/src/lib.rs:130-136 | the reported confidence is that of the strongest walk exactly when, at each of the finitely many levels at which a walk of edges that strong leads on to the node, the first walk to some node before it has edges that strong and leads on as well, a condition on the graph, start, depth and threshold alone |
| CausalCounterexample.ReportedDepthNeedNotBeShortest | crates/causal/src/lib.rs:114-129 | a graph on which the first condition fails: a stronger detour replaces a direct edge, depth and all |
| CausalCounterexample.ConfidenceNeedNotBeStrongest | crates/causal/src/lib.rs:130-136 | on the same graph the second fails: a node is reported with 0.5 although a walk of strength 0.9 reaches it |
| Correlation.Correlate | crates/causal/src/lib.rs:385-463 | refuses a bad window or policy, and otherwise links every request to the responses after it, within all limits |
| Correlation.OrderDoesNotMatter | crates/causal/src/lib.rs:408-428 | without ties the trace does not depend on the order the signals are handed over in |
| Correlation.ObservedIsEarliest | crates/causal/src/lib.rs:402-428 | what is looked at and what is left out are together the signals seen in the window or its tail on its route; something is left out exactly above the limit, which is then reached, and never comes before anything looked at |
| Correlation.TraceIsCausal | crates/causal/src/lib.rs:385-463 | what is looked at is of the window and in order, and the links are of exactly the requests among it that some interface change follows, in order, each to the first changes after it, up to the limit, with the confidence the window calls for |
| Artifacts.EvictionsAreFewest | crates/artifacts/src/lib.rs:273-306 | what is evicted is the shortest oldest-first prefix that makes the rest fit |
| Artifacts.NewestStays | crates/artifacts/src/lib.rs:123-154 | whatever fits by itself is never evicted for its own arrival |
| Artifacts.SortByAge | crates/artifacts/src/lib.rs:235-271 | files are restored oldest first, by id among equals |
| Artifacts.ArtifactStore.RestoreExisting | crates/artifacts/src/lib.rs:235-271 | indexes exactly the files found, in order of age, and counts their bytes |
| Artifacts.ArtifactStore.Open | crates/artifacts/src/lib.rs:61-91 | indexes the files with their sizes, evicts the shortest oldest-first prefix that makes the rest fit, and fails exactly when the root or one of these files cannot be dealt with |
| Artifacts.ArtifactStore.ProjectedUsedBytesAfterPut | crates/artifacts/src/lib.rs:123-154 | changes nothing; what is retained leaves the use as it is, what is over the limit by itself is refused, anything else leaves its size and that of the youngest that fit beside it |
| Artifacts.ArtifactStore.Put | crates/artifacts/src/lib.rs:156-218 | succeeds exactly when the file system lets it and no file among the oldest that have to go is stuck, each refusal having its own exact reason; success keeps the new artifact, evicts the shortest oldest-first prefix and leaves in use exactly what was projected; a failure leaves the store valid, as it was or partly evicted |
| Artifacts.ArtifactStore.PutRetained | crates/artifacts/src/lib.rs:161-178 | an id already retained succeeds exactly when size and file contents agree, names the reason otherwise, and changes at most the restored kind |
| Artifacts.ArtifactStore.PutNew | crates/artifacts/src/lib.rs:207-218 | indexes at the young end, then evicts, and fails exactly at the first stuck file among the oldest that have to go |
| Artifacts.ArtifactStore.Gc | crates/artifacts/src/lib.rs:273-306 | drops the shortest oldest-first prefix that makes the rest fit, and fails exactly when one of it cannot be removed, at the first such; used stays the sum of the indexed sizes |
| CanonicalJson.CanonicalIsExact | crates/content-addressed/src/lib.rs:185-197 | two values have one canonical form exactly when they are equal up to reordering object keys at every depth |
| CanonicalJson.CanonicalIsIdempotent | crates/content-addressed/src/lib.rs:185-197 | canonicalising twice is canonicalising once |
| ContentStore.Store.Insert | crates/content-addressed/src/lib.rs:48-54 | sorts and deduplicates dependencies, and keeps what is stored under the hash already |
| ContentStore.Store.DependencyClosure | crates/content-addressed/src/lib.rs:68-82 | ends on any graph with the least set that holds the root and, with every stored object, its dependencies |
| ContentStore.Store.CollectGarbage | crates/content-addressed/src/lib.rs:84-92 | keeps exactly the stored objects reachable from a root, as they were, and counts the rest |
| ContentStore.DependenciesSurvive | crates/content-addressed/src/lib.rs:84-92 | no kept object loses a stored dependency |
| ContentStore.ReachabilitySurvives | crates/content-addressed/src/lib.rs:84-92 | collecting takes nothing away that a root could reach |
| ContentStore.SweepingIsIdempotent | crates/content-addressed/src/lib.rs:84-92 | collecting again with the same roots removes nothing |
| ContentStore.HashIdentifies | crates/content-addressed/src/lib.rs:37-54 | with a hash injective on canonical forms, two objects get one hash exactly when they agree up to key order and the order and repetition of dependencies |
| Baseline.NormalizedIsExact | crates/content-addressed/src/lib.rs:119-125 | normal forms agree exactly when only the order and repetition of evidence differs |
| Baseline.ComparedIsExact | apps/cli/src/headless.rs:1345-1380 | a state without an entry is new; any other matches or has changed by the envelope its entry holds, of the same state, route and viewport, and is incompatible without one; stored is what is new, and by update what has changed or holds nothing |
| Baseline.BaselineState.CompareAndRetain | apps/cli/src/headless.rs:1307-1413 | reports the comparison, and stores exactly a new state, or by update one that changed or cannot be loaded; it succeeds exactly when the roots are safe and whatever is to be stored can be; the index changes last, so any failure leaves it as it was |
| Baseline.BaselineState.Retain | apps/cli/src/headless.rs:1382-1398 | succeeds exactly when the envelope and the index fit, the store takes the bytes and the index can be written, and then the entry points at a file holding them; every failure names the first reason and leaves the index |
| Baseline.StoredBaselineMatches | apps/cli/src/headless.rs:1457-1481 | a stored baseline compares as a match with the same place and evidence, and as changed with other evidence |
| Baseline.StoreThenCompare | apps/cli/src/headless.rs:1307-1413 | two runs: once the first has stored its candidate, the second opens within the same budget on the files the first left, without refusal, and reports a match for the same evidence and a change for any other, with or without the update flag |
| Baseline.NextRun | apps/cli/src/headless.rs:1307-1413 | the next run under any budget matches exactly when opening has not evicted the file, and is incompatible when it has |
| Baseline.BaselineState.Reopen | crates/artifacts/src/lib.rs:61-91 | opening on the files of the run before, over budget or not, evicts an oldest-first prefix from the disk and leaves index and disk in agreement, sizes included; it is refused exactly when the root or one of these files cannot be dealt with |
| Baseline.EntriesStayWithoutUpdate | apps/cli/src/headless.rs:1344-1398 | over any sequence of runs without the update flag an index entry never changes |
| Baseline.EntryChangesOnlyByUpdate | apps/cli/src/headless.rs:1344-1398 | an entry changes only by an update of its own state whose baseline changed or could not be loaded |
| Capture.ClipIsIntersection | crates/capture/src/lib.rs:480-511 | clipping keeps exactly the points of the rectangle inside the viewport, and fails when there are none |
| Capture.ExpandContains | crates/capture/src/lib.rs:556-577 | padding neither loses the element nor leaves the viewport, takes in every visible point less than the padding away, and is no wider or taller than that |
| Capture.FindSemanticPath | crates/capture/src/lib.rs:379-395 | the push-and-pop search leaves the path to the node, or the stack as it was |
| Capture.PathIsRootToNode | crates/capture/src/lib.rs:379-395 | the path is a chain from the root to the first node in document order with the reference; none is found exactly when no node has it |
| Capture.FindAncestor | crates/capture/src/lib.rs:397-460 | finds the nearest proper ancestor that offers a rectangle |
| Capture.PushUniqueTarget | crates/capture/src/lib.rs:524-532 | pushes unless the rectangle is listed already |
| Capture.ResolveProgressiveTargets | crates/capture/src/lib.rs:288-377 | refuses an empty viewport, an unknown reference and an invisible element, in this order, and otherwise plans around the nearest component and section |
| Capture.PlanIsSound | crates/capture/src/lib.rs:288-377 | two to four targets, the element first and the viewport last, all before it with rectangles of their own, each inside the viewport and around the visible part of the element |
| Capture.PlanIsComplete | crates/capture/src/lib.rs:288-577 | the plan is the padded element, the last enclosing ancestor of the same owner or source, the last enclosing sectioning ancestor and the viewport, each with its own kind, name, reference and confidence and in this order; only an owner whose rectangle is listed before is left out |
| CssLexer.Scan | crates/control/src/css_source_coordinate.rs:504-563 | the loop of the three nesting scanners stops exactly where the lexical definition says |
| CssLexer.LandsOnTheFirst | crates/control/src/css_source_coordinate.rs:504-563 | a scan lands on a byte exactly when it is the first of its kinds outside strings, escapes, comments, parentheses and brackets, with the nesting in order before it |
| CssLexer.FindRuleBoundary | crates/control/src/css_source_coordinate.rs:504-563 | the first top-level semicolon or brace, or the clean end; anything else is refused |
| CssLexer.FindDeclarationEnd | crates/control/src/css_source_coordinate.rs:665-720 | the first top-level semicolon, or the clean end |
| CssLexer.FindTopLevelColon | crates/control/src/css_source_coordinate.rs:722-760 | the first top-level colon; an end inside a string or parentheses is no colon |
| CssLexer.FindMatchingBrace | crates/control/src/css_source_coordinate.rs:565-607 | the brace scanner computes the matching brace |
| CssLexer.MatchesTheBlock | crates/control/src/css_source_coordinate.rs:565-607 | that brace is exactly the first code byte after which as many braces are closed as opened, never more than the limit being open before it |
| CssTokens.CodeIsPlain | crates/control/src/css_source_coordinate.rs:504-607 | the text falls into comments, strings with their escapes and single bytes, but for a rest that does not end, and the code is the single bytes in order |
| CssTokens.FallsIsCode | crates/control/src/css_source_coordinate.rs:504-607 | it falls in one way only, so the code is that of any way it falls |
| CssBoundaries.RuleEndsAtFirst | crates/control/src/css_source_coordinate.rs:504-563 | a prelude ends exactly at the first top-level semicolon or opening brace of the code, counted with no more closed than opened and at most 32 deep before it, or at a clean end without any |
| CssBoundaries.DeclarationEndsAtFirst | crates/control/src/css_source_coordinate.rs:665-720 | a declaration ends exactly at the first top-level semicolon, no brace before it, or at a clean end |
| CssBoundaries.ColonIsFirst | crates/control/src/css_source_coordinate.rs:722-760 | the colon is exactly the first at the top level; there is none exactly when nothing is closed unopened and no comment stays open |
| CssBoundaries.BlockEndsAtFirst | crates/control/src/css_source_coordinate.rs:565-607 | a block ends exactly at the first brace behind as many closing as opening braces, at most 14 being open before it |
| CssPositions.AsciiIsWhole | crates/control/src/css_source_coordinate.rs:504-607 | an ASCII byte of UTF-8 text is a whole character, so every scanner lands on a character boundary |
| Utf8.EncodeIsExact | crates/control/src/css_source_coordinate.rs:504-607 | the bytes of a character are exactly those that carry its bits, six to a byte, in the fewest bytes |
| CssPositions.LineColumns | crates/control/src/css_source_coordinate.rs:1032-1060 | the loop with its lookahead computes line, scalar column and UTF-16 column |
| CssPositions.PositionIsCounted | crates/control/src/css_source_coordinate.rs:1032-1060 | the line is one more than the line breaks before a character, a pair counting once; the columns count the characters, and the UTF-16 units, from where the line starts |
| CssPositions.PositionsIncrease | crates/control/src/css_source_coordinate.rs:1032-1060 | a later character has a strictly later position in both columns exactly when it is not the one just behind a carriage return and its line feed |
| CssText.StripComments | crates/control/src/css_source_coordinate.rs:868-911 | the loop computes the stripped text |
| CssText.StripIsClean | crates/control/src/css_source_coordinate.rs:868-911 | stripping leaves no comment and no open string |
| CssInk.StripKeepsInk | crates/control/src/css_source_coordinate.rs:868-911 | stripping fails exactly on an open comment or string, and otherwise keeps every character outside comments and whitespace, and everything in strings, in order, with what a comment or whitespace kept apart still apart |
| CssCollapse.CollapseCssWs | crates/control/src/css_source_coordinate.rs:913-951 | the loop computes the collapsed text |
| CssCollapse.CollapseIsNormal | crates/control/src/css_source_coordinate.rs:913-951 | collapsing leads to the normal form: single spaces outside strings, trimmed |
| CssInk.CollapseKeepsInk | crates/control/src/css_source_coordinate.rs:913-951 | collapsing fails exactly on an open string, and otherwise keeps every character but unquoted whitespace, in order, together or apart as they were |
| CssCollapse.NormalizeIsIdempotent | crates/control/src/css_source_coordinate.rs:762-780 | text is in normal form exactly when it normalises to itself, and normalising twice is normalising once |
| CssCollapse.NormalizeKeepsQuoted | crates/control/src/css_source_coordinate.rs:868-951 | normalising keeps all quoted text, to the character and in order |
| CssInk.NormalizeKeepsInk | crates/control/src/css_source_coordinate.rs:868-951 | so does normalising, comments counting as whitespace |
| CssInk.NormalizesWhenClean | crates/control/src/css_source_coordinate.rs:868-951 | stripping and normalising succeed exactly on text the lexer reads to a clean end |
| CssCollapse.NormalizeSucceedsWithStrip | crates/control/src/css_source_coordinate.rs:868-951 | once stripping succeeds, collapsing does |
| CssNormalize.PreludeNormalizesOnce | crates/control/src/css_source_coordinate.rs:481-482 | the double normalisation of a rule's prelude equals a single one, and can only add a refusal by size, emptiness or backslash |
| CssNormalize.ContainsUnquotedBackslash | crates/control/src/css_source_coordinate.rs:953-974 | true exactly when a backslash stands outside strings |
| CssNormalize.TopLevelImportantIndex | crates/control/src/css_source_coordinate.rs:819-866 | the loop computes the priority mark of a value |
| CssNormalize.PriorityIsTopLevel | crates/control/src/css_source_coordinate.rs:819-866 | a value has priority exactly by its first exclamation mark outside strings, parentheses and brackets that says so, has none exactly when it is well nested without one, and is refused exactly when it is not |
| CssNormalize.ValueIsSaid | crates/control/src/css_source_coordinate.rs:782-866 | a value comes out exactly when it is in order, and then it is the collapsed text in front of the first priority mark, important, or all of it, without any mark, and not |
| CssNormalize.PropertyIsSaid | crates/control/src/css_source_coordinate.rs:782-800 | a property comes out exactly when the text without comments is one word of letters, digits, hyphens and underscores within the limit, with whitespace around it, and then it is that word in lower case |
| CssGrammar.FoundIsWritten | crates/control/src/css_source_coordinate.rs:423-663 | a declaration comes out of an accepted stylesheet exactly when it is written in it: its selector is the normal form of the prelude of a rule that stands in the stylesheet or in a media or supports block of it, and a segment between the braces of that rule says its property, value and priority; both budgets hold |
| CssAccepts.AcceptedIsGood | crates/control/src/css_source_coordinate.rs:413-663 | a stylesheet is read exactly when it has at most 512 KiB and is a list of character sets, blocks of segments under a selector, skipped blocks and blocks of rules nested at most 12 deep, with at most 512 rules and 4096 declarations in all; then exactly so many are counted and found |
| CssPlaces.WrittenIsCode | crates/control/src/css_source_coordinate.rs:504-607 | a written declaration starts at a byte of the stylesheet outside strings and comments, between the braces of its rule, which are outside too and match each other in the whole stylesheet |
| CssGrammar.SliceEncodes | crates/control/src/css_source_coordinate.rs:609-663 | a slice taken between two boundaries is exactly the characters of those bytes |
| CssParser.Parser.ParseDeclaration | crates/control/src/css_source_coordinate.rs:629-653 | normalises both sides, takes the position, spends the budget and pushes, in this order |
| CssParser.Parser.ParseDeclarations | crates/control/src/css_source_coordinate.rs:609-663 | every segment of a block, and no rule counted |
| CssParser.Parser.TakeStatement | crates/control/src/css_source_coordinate.rs:442-459 | lets through only a charset statement, counted as a rule |
| CssParser.Parser.ParseBlock | crates/control/src/css_source_coordinate.rs:460-487 | counts the rule before it looks for the end of its block, as the grammar says |
| CssParser.Parser.ParseRule | crates/control/src/css_source_coordinate.rs:440-494 | one rule or statement, by what ends its prelude |
| CssParser.Parser.ParseRuleList | crates/control/src/css_source_coordinate.rs:423-496 | every rule of a region, to the nesting limit; the output only grows, in source order |
| CssParser.OrderIsPlace | crates/control/src/css_source_coordinate.rs:1032-1060 | source order is strict order of position, so no two declarations share one |
| CssParser.ParseStylesheet | crates/control/src/css_source_coordinate.rs:413-421 | gives exactly what the grammar gives, so exactly the declarations written in the stylesheet; what is accepted is in source order, at strictly increasing positions in both columns, within both budgets |

## Left out

- HTTP routes, bearer checks, response bodies and status codes; the session manager; the page registry behind
  postcondition evaluation, whose verdicts are parameters.
- Polling, timeouts and task scheduling: a handler may be delayed at any critical section for any time, so they only
  choose among the runs already covered.
- Expiry by the clock: which plans and records have expired is a choice of the environment at each pruning step, and a
  record may vanish at any moment.
- Reconfiguring the control of running sessions: a handle is configured once per process.
- Live-bridge cancellation, in-flight bookkeeping, capacities and surface switches: a queue that hands out in order what
  it has not lost, and may lose any action at any moment.
- The companion record of an action's operation is not kept: binding it is a step that can fail, and what it would hold
  is the operation of the planned action.
- Decoding a postcondition reference against the contract registry at plan time: the environment answers for it.
- A file left on disk by a put whose read-back fails: it is in no index and is not listed at the next opening.
- `discard_bound_canonical_action`: drops a binding the model does not keep.
- Journal schema version, recording times and error payloads; error messages and explanations are not compared, only
  which refusal it is.
- In the protocol an append is durable or changes nothing. What a failed one leaves on disk is a matter of
  `JournalRecovery`; a restart that reads a whole line whose sync had failed is not a step of the protocol.
- Receipt references and snapshot cuts are values with their identity, not the strings they are rendered to.
- Floating-point rounding, infinities and NaN: metrics, confidences, coordinates and scroll deltas are reals.
- Saturating arithmetic on bytes in use: `used` plus the incoming size fits 64 bits, which the budget the CLI allows
  guarantees.
- File-system identity, symlink and reparse checks, atomic replacement: they decide the `Io` of a call. What artifact
  files hold is what that call reads; only `Baseline` keeps the bytes.
- Writing canonical metadata beside an artifact, outside the baseline comparison.
- The refusal of a projection still over budget after everything else is evicted: that branch cannot be reached.
- `top_level_important_index` works on bytes; the model on characters, which agree on every byte it looks at.
- `resolve_query`, source maps and path resolution of the stylesheet locator: lookups over what the parser returns.
- `progressive_regions`, settle evaluation and capture plans; Merkle regions and hash-set differences; hypotheses,
  verification plans and proof capsules: filters and counters that would only add easy members.
- Desktop interface, translations, attestation, accessibility scans, bisection, browser launching and release scripts.
