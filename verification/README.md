# Verification of the task orchestrator

This project models the orchestrator of `libs/orchestrator`, which decides when work on a
task may run and records what became of it, together with the reference store it commits
to and three small protocols of the runner autoscaler, and proves what they promise over
every history.

A **task** owns at most one live **run**. Requests, dispatch, queue claims, placement
reports, heartbeats, results, cancellations, lease expiry, executor exits, credential
operations, provider fallback, rerouting, label handoff and delivery observations are
pure decisions on the task and one run; a transaction reads, decides and commits
task, runs, request keys and outbox effects together. The proofs show what holds in
every state that any interleaving of these steps can reach.

## How it is built

| files | what they hold |
|---|---|
| `Model`, `Decide`, `Credential`, `Fallback`, `Routing`, `Delivery`, `Orchestrator`, `Outbox` | records and pure decisions, one module per source file |
| `Ledgers`, `Machine` | one task's durable state, its transactions, and the state machine of all steps under a clock that never goes back |
| `Invariants`, `Primitives`, `Lawful` | the inductive invariant; each commit is a touch of one run, a task-only change, a mint, or a touch followed by a mint, and these preserve it |
| `TouchSteps`, `MintSteps`, `CommandPlans`, `RequestPlans` | every decision of every operation is one of those commits |
| `History`, `Theorems`, `Effects`, `Frames`, `Budgets`, `CredentialFence`, `Deferral`, `CodexDebt`, `Labels`, `LabelAcceptance`, `Linearization`, `OutboxFence`, `OutboxQueue` | what holds over whole histories |
| `Admission`, `Lifecycle` | what each operation does to what may happen next |
| `Requests`, `TaskWrites`, `Claims`, `Reports`, `Operations`, `Deliveries`, `OutboxEntries`, `Refusals` | exactly when each operation is accepted, all that it writes, and why it is refused |
| `Audit`, `ClaimHistory` | each run's audit trail and policy ancestry; what a claim has seen |
| `Findings`, `LabelReplays` | where the code keeps a law only under a condition, with instances |
| `Tables`, `MemoryStores`, `Sweeps` | the store's maps as mutable objects, refining one ledger per task; the orchestrator's loops over it |
| `Keys` | the document-id strings are injective |
| `SweepCursor`, `Histograms`, `JobStart` | the autoscaler's sweep cursor, histogram window and latency recorder, and Job start and retirement |

Time is a number of milliseconds. Optional fields are `Option`s. Ids and keys
built as text are structured values, which `Keys` justifies. Tokens and UUIDs are
parameters of the steps that take them.

### What the state machine assumes of its environment

* The clock of a history never decreases.
* Requests come from callers: their source is `caller`, and a fresh provider
  authorization lists distinct pipelines.
* A source revision is requested under its own key, without a request binding and
  without a provider policy (`RequestPlans.GoodInput`). `Findings.FallbackDropsRetry`
  shows why the last part matters: a run that is owed both a revision retry and a
  fallback has the retry dispatched but never stored.
* Provider grants, availability and cooldowns, and the choice of the next queued run
  among the admission candidates, are arbitrary inputs of the step that reads them.

### Where the code keeps less than its documentation says

* `libs/orchestrator/src/provider-fallback.ts:49-90` keeps the dispatch entry of a
  revision retry whose run it replaces. `Findings.FallbackDropsRetry` gives the exact
  condition on the report's inputs, `Findings.DroppedRetryExample` one instance.
* A report without a claim token is accepted behind an open credential operation even
  after the lease has run out, and the finish then refuses it
  (`libs/orchestrator/src/decide.ts:741-792`). `Deferral.DeferralRecorded` and
  `Deferral.FinishSettlesDeferred` give the condition, both ways;
  `Findings.LateReportWithoutTokenStalls` is an instance. Reports with a token always
  meet it.
* A refused label may succeed when it is replayed, if its refusal recorded no clock:
  the task was unknown, or a guard before routing stood in the way (stored work, expected
  pipeline, a missing grant; `libs/orchestrator/src/orchestrator.ts:190-237`).
  `Labels.CoveredExactly` gives the exact condition for the clock to be covered,
  `LabelAcceptance.AcceptedExactly` the exact condition for a label to succeed at all, and
  `LabelReplays` two such replays. `Labels.ReplayedLabelNeverMints` says which never
  succeed: a covered clock, a taken key, a receipted revision, a label on a native task.
* The outbox overwrites an entry that is emitted again, which happens to the issue start of
  a run released after its process started and then claimed and started anew. Its delivered
  entry is pending again (`OutboxFence.RestartResetsEntry`), and it may be handed out ahead of
  a waiting entry oftener than the claim order otherwise allows
  (`OutboxQueue.IssueStartOvertakes`). Over drains, settlements, wakes and the
  additions commits are limited to, both laws hold exactly for all other entries.

## Model

| member | source | states |
|---|---|---|
| Machine.StepPreserves | libs/orchestrator/src/orchestrator.ts:154-903 | every step of every operation, by any caller in any order, keeps the whole invariant |
| Machine.ReachableIsGood | libs/orchestrator/src/model.ts:11-21 | every state reachable from the empty store satisfies it |
| Primitives.TouchPreserves | libs/orchestrator/src/decide.ts:1219-1262 | settling or rewriting one run keeps mutex, index, revision, effect and delivery invariants |
| Primitives.MintPreserves | libs/orchestrator/src/decide.ts:452-536 | minting the next run of an idle task keeps them |
| Primitives.FollowedIsSequence | libs/orchestrator/src/memory-store.ts:333-374 | a joint commit of a settlement and its successor is the two in sequence, in one version |
| CommandPlans.RunOutcomePlan | libs/orchestrator/src/orchestrator.ts:850-902 | every accepted transaction on a run is a lawful commit: a touch of that run, possibly followed by one mint |
| RequestPlans.RequestOutcomePlan | libs/orchestrator/src/orchestrator.ts:160-313 | every accepted request is lawful and touches no claimed run |
| RequestPlans.DecidedIsNew | libs/orchestrator/src/orchestrator.ts:203-237 | a request that reaches a decision has an unused key and an unused revision |
| Theorems.AtMostOneLiveRun | libs/orchestrator/src/model.ts:550-560 | in every reachable state at most one run is live, the lock names exactly it, run ids are exactly r1..r(runCount), a closed task holds no lock |
| History.SettledForever | libs/orchestrator/src/decide.ts:733-889 | over any history a run is never removed, its identity never changes, and a terminal state and result are final |
| History.ClosedForever | libs/orchestrator/src/decide.ts:1181-1201 | a closed task stays closed and never gets another run |
| History.TaskForward | libs/orchestrator/src/memory-store.ts:333-346 | run counts and versions only grow, and an equal version is an equal task |
| Theorems.IndexIsScan | libs/orchestrator/src/memory-store.ts:347-378 | the request index always equals a scan of all runs, so a key has at most one run |
| Theorems.ReplayReturnsOriginal | libs/orchestrator/src/orchestrator.ts:203-237 | after any further history a replayed request, bound or not, is never decided again and returns the original run |
| Theorems.AnsweredIsBound | libs/orchestrator/src/memory-store.ts:384-412 | an answered request leaves its binding on record, and resolves to the same id from then on |
| Theorems.RevisionAttemptsAreBounded | libs/orchestrator/src/decide.ts:414-449 | at most three runs ever carry a source revision, with distinct attempt numbers |
| Theorems.RevisionReplayRefused | libs/orchestrator/src/orchestrator.ts:203-210 | after any history a receipted revision is refused: a duplicate, or a mismatch when its content differs |
| Theorems.ReceiptRecordsDesired | libs/orchestrator/src/memory-store.ts:267-281 | an accepted revision is receipted exactly when the task came to desire it |
| Theorems.WaitingDeliveryIsOwned | libs/orchestrator/src/decide.ts:213-226 | while a delivery waits, the live run is an attributed reply or names the bound run as its predecessor |
| Theorems.FallbackNeverRefused | libs/orchestrator/src/provider-fallback.ts:92-141 | in any good state an accepted report is accepted with fallback too: no gate refuses the successor |
| Theorems.StartupHoldIsBounded | libs/orchestrator/src/decide.ts:101-165 | without a heartbeat a claim is recoverable within 60 minutes while waiting and under 75 once placed; an unclaimed run never expires |
| History.StepMoves | libs/orchestrator/src/decide.ts:565-623 | every step keeps each run's claim identity, moves placement one way by newer observations of one Job, and never moves a deadline back within a claim |
| History.ClaimKeepsItsRules | libs/orchestrator/src/decide.ts:565-690 | over any history within a claim: one Job uid, waiting to placed one way, strictly later observations, first heartbeat kept, recovery deadline never earlier |
| Effects.CommitsNeverOverwrite | libs/orchestrator/src/memory-store.ts:371-373 | no commit resets an outbox entry that exists, leased, done or failed (issue starts aside) |
| Effects.EmittedOnce | libs/orchestrator/src/decide.ts:814-838 | over any history no effect id is emitted twice, and the outbox holds exactly what was emitted |
| Audit.EveryRunReports | libs/orchestrator/src/decide.ts:1219-1278 | each run's dispatch is emitted exactly once; its outcome exactly once when it settled without being rerouted or handed over, and otherwise never |
| Audit.EventsReplayToState | libs/orchestrator/src/model.ts:11-21 | in every reachable state a run's events start with its request, follow legal transitions in clock order and end in its state |
| Audit.PolicyTellsItsAncestry | libs/orchestrator/src/provider-fallback.ts:49-90 | in every reachable state a policy names the run it began at and the settled run its last attempt extends by one, under the same authorization |
| Budgets.StepSpends | libs/orchestrator/src/decide.ts:1046-1092 | each automatic step pays for the run it mints out of one budget of alternatives and losses |
| Budgets.AutomaticWorkTerminates | libs/orchestrator/src/provider-fallback.ts:22-36 | over any mix of losses, fallbacks and reroutes one live run leads to at most 3 * allowed + 2 automatic runs |
| Budgets.IdleStaysIdle | libs/orchestrator/src/decide.ts:1046-1092 | a task without a live run mints nothing until the next request |
| Budgets.AttemptsAreBounded | libs/orchestrator/src/provider-fallback.ts:49-90 | attempted pipelines are distinct, contain the run's own, and number at most allowed + 1 |
| CredentialFence.StepHolds | libs/orchestrator/src/credential-operation.ts:83-159 | no step but a finish of that run removes an open credential operation |
| CredentialFence.FenceHolds | libs/orchestrator/src/memory-store.ts:770-798 | until finished, an operation keeps its identity and its run keeps its claim, over any history |
| CredentialFence.MutationsAreSequential | libs/orchestrator/src/credential-operation.ts:113-130 | the mutations prepared under an operation are numbered on from its sequence without gaps, each after the last was acknowledged, up to 100 |
| CredentialFence.OperationIsClaimants | libs/orchestrator/src/credential-operation.ts:23-58 | a reachable operation is under the token of the claim of a run on Codex or of a Goose run on Codex credentials |
| Deferral.DeferralRecorded | libs/orchestrator/src/decide.ts:755-792 | a report behind an open operation is recorded as given; it is in time exactly when the recovery deadline had not passed |
| Deferral.AcceptedReportIsAdmitted | libs/orchestrator/src/orchestrator.ts:391-476 | a token-authenticated report accepted behind an operation is committed |
| Deferral.DeferredIsCommitment | libs/orchestrator/src/decide.ts:741-792 | over any history a committed report is kept as it is or becomes the result |
| Deferral.FinishSettlesDeferred | libs/orchestrator/src/orchestrator.ts:480-556 | a finish with no outstanding mutation and the exact retirement sequence settles the deferred report, at any time, exactly when it was in time |
| Deferral.DeferredReportCompletes | libs/orchestrator/src/credential-operation.ts:98-159 | accepted report, any history, proven finish: the run ends with that report |
| CodexDebt.NoOrphanedDebt | libs/orchestrator/src/orchestrator.ts:869-900 | every step that settles a claimed Codex run, or a claimed Goose run on Codex credentials, leaves a cleanup operation on its claim, or is a finish proving the lease retired |
| CodexDebt.CleanupNeverRefused | libs/orchestrator/src/orchestrator.ts:886-900 | reserving the cleanup never turns an accepted transition into a refusal |
| CodexDebt.RecipeDebtRetires | libs/orchestrator/src/credential-operation.ts:117-140 | a claimed Goose run on Codex credentials that misses its deadline holds a cleanup under its token; its executor's exit is remembered and the finish retires the claim |
| CodexDebt.CleanupClearedByProof | libs/orchestrator/src/credential-operation.ts:98-112 | an owed cleanup is cleared only by a finish at the exact sequence with no mutation outstanding |
| Labels.LabelClocksIncrease | libs/orchestrator/src/provider-routing.ts:29-162 | over any history the routing record is kept or replaced by one with a strictly later clock |
| Labels.CoveredExactly | libs/orchestrator/src/orchestrator.ts:190-268 | an answered label leaves its clock covered exactly when it was covered before, it was accepted, or its task exists and every guard before routing passes |
| Labels.ReplayedLabelNeverMints | libs/orchestrator/src/provider-routing.ts:52-60 | a label spent once (its clock covered, its key taken, its revision receipted, or its task native) is never accepted after any history, and changes no run and no task |
| LabelAcceptance.AcceptedExactly | libs/orchestrator/src/provider-routing.ts:29-162 | a label mints exactly when it passes the guards, is newer than the clock on record and than the latest run or follows its accepted generation, may change the provider if it does, the claim inventory is complete and empty, and a lock in its way is a queued run of another provider |
| LabelReplays.UnknownTaskReplayMints | libs/orchestrator/src/provider-routing.ts:66-76 | a label refused on an unknown task mints when replayed after another label founded the task and its run was canceled |
| LabelReplays.ForbiddenReplayMints | libs/orchestrator/src/orchestrator.ts:226-230 | a label refused for want of a grant on a known task leaves no trace, and mints when replayed with the grant |
| Labels.LabelMintsUnowned | libs/orchestrator/src/provider-routing.ts:94-110 | a label mints only when no claimed run is live or holds an operation, and never when more than a thousand runs are claimed |
| Labels.LabelRecordsOutcome | libs/orchestrator/src/provider-routing.ts:112-162 | an accepted label's record names the minted run as the live one; a refused one keeps the accepted generation |
| Labels.LabelNeedsAuthority | libs/orchestrator/src/provider-routing.ts:78-93 | a label mints only if newer than the latest run or following its accepted generation, and changes provider only if allowed |
| Requests.LabelRecordIsTrue | libs/orchestrator/src/provider-routing.ts:46-77 | accepted or refused, a label's record says who asked for which provider, when and over which run; a refused one writes nothing else |
| Requests.LabelHandsOver | libs/orchestrator/src/provider-routing.ts:112-141 | a label that takes over from a queued run cancels exactly that run, publishing no outcome for it, and dispatches its successor |
| Admission.AcceptedLabelGoverns | libs/orchestrator/src/orchestrator.ts:211-220 | the provider an accepted label chose is the one later admissions work on |
| Linearization.AcceptedWriteIsAtomic | libs/orchestrator/src/orchestrator.ts:821-834 | an accepted close, work update or issue refresh equals an atomic step at its commit, whatever ran between its reads and its write |
| Linearization.RefusedWriteIsAtomic | libs/orchestrator/src/orchestrator.ts:701-759 | a refused one is the atomic answer at one of its two reads |
| OutboxFence.OutboxEventMoves | libs/orchestrator/src/model.ts:694-744 | lease, settle and wake never change a done or failed entry, whatever its effect; ownership comes from a lease and ends with a settlement |
| OutboxFence.SettledEntryIsFinal | libs/orchestrator/src/memory-store.ts:371-373 | over any history a done or failed entry stays as it is exactly as long as no commit emits it again, which only an issue start can be |
| OutboxFence.IssueStartEmitted | libs/orchestrator/src/decide.ts:668-687 | an issue start is emitted exactly by the claimant's first process start of a claim, in time, for a Linear issue without source revision |
| OutboxFence.AnnouncedOncePerClaim | libs/orchestrator/src/decide.ts:655-687 | within one claim it is never announced again |
| OutboxFence.RestartResetsEntry | libs/orchestrator/src/memory-store.ts:770-798 | an instance of the exception: released, reclaimed and started, the delivered entry is pending anew |
| OutboxFence.ClaimSettlesAtMostOnce | libs/orchestrator/src/model.ts:710-744 | with fresh claim ids a claim settles any entry at most once, and never after it lost the lease |
| OutboxEntries.SettledAsTold | libs/orchestrator/src/model.ts:710-744 | an entry is settled exactly by the claim that leases it, into the state it was told; history given replaces the old, omitted it stays, or goes if the settlement recovered |
| OutboxEntries.SettlementWrites | libs/orchestrator/src/memory-store.ts:575-580 | in the ledger a settlement does so to the entry it names, and nothing else |
| OutboxEntries.LeaseRunsOut | libs/orchestrator/src/memory-store.ts:525-573 | an entry is leased exactly while free, to one claim, counted once; it is free again exactly from the end of the lease |
| OutboxEntries.EligibleIsTakeable | libs/orchestrator/src/memory-store.ts:530-556 | what a drain may take is exactly what is free: a lease that ran out, or a pending entry not put off |
| OutboxEntries.WakeMakesDue | libs/orchestrator/src/model.ts:690-706 | a wake makes exactly a pending entry that was put off due at that instant |
| OutboxEntries.NewEntryIsFree | libs/orchestrator/src/decide.ts:1265-1278 | a new entry was handed to no one and may be taken at once |
| OutboxQueue.SelectionIsEligible | libs/orchestrator/src/memory-store.ts:525-556 | a drain leases only expired leases and due, unexcluded entries |
| OutboxQueue.UnclaimedIsBehind | libs/orchestrator/src/model.ts:775-779 | an entry left unclaimed is behind every pending one that was claimed, and the drain was full |
| OutboxQueue.ExpiredComeFirst | libs/orchestrator/src/memory-store.ts:525-556 | an expired lease is left only when the drain was full of expired leases |
| OutboxQueue.DrainLeases | libs/orchestrator/src/memory-store.ts:557-573 | a drain leases what it selects, within its limit, each once more and to its own claim until the end given, and leaves every other entry |
| OutboxQueue.BoundedOvertaking | libs/orchestrator/src/memory-store.ts:525-588 | while an entry waits, any other is taken ahead of it at most e.attempts - x.attempts + 1 times, and e.attempts + 1 more each time a commit writes it over |
| OutboxQueue.BoundHoldsExactly | libs/orchestrator/src/memory-store.ts:371-373 | over every sequence of drains, settlements, wakes and additions within what commits are limited to, the plain bound holds exactly for entries other than issue starts, which commits may write over |
| OutboxQueue.IssueStartOvertakes | libs/orchestrator/src/memory-store.ts:525-588 | an issue start written over twice is taken three times ahead of an entry that allows two |
| Admission.RequestAdmitted | libs/orchestrator/src/decide.ts:199-235 | a request is admitted exactly on an idle open task whose delivery it may own, or on an unknown task with work |
| Requests.PlainRequestDecided | libs/orchestrator/src/orchestrator.ts:190-313 | a plain request is decided exactly if it passes every guard, no run is live and the idle task takes it |
| Requests.SwitchDecided | libs/orchestrator/src/orchestrator.ts:270-304 | a switch of provider exactly if the live run is the one it names, still queued on another provider, and the task without it takes the request |
| Refusals.RequestRefusals | libs/orchestrator/src/decide.ts:199-262 | under a live run a request is shown that run, as a duplicate or as busy; on an idle task it is refused for a closed task, another's delivery or missing work, each exactly when it applies |
| Refusals.GuardRefusals | libs/orchestrator/src/orchestrator.ts:190-237 | a guard stops a request as a mismatch or as forbidden exactly when it fails; a repeated request shows its run only to who may use it |
| Admission.RequestMintsWhatWasAsked | libs/orchestrator/src/decide.ts:236-287 | the run is what was asked; work is written once, the issue only gets newer, delivery and routing stand |
| Requests.RequestMintsExactly | libs/orchestrator/src/decide.ts:199-287 | all that an admitted request writes: the newborn run as asked, with its policy and its two hours, one dispatch, and of the task only the lock, the count, the desire and the newest issue |
| Requests.RequestMintsInput | libs/orchestrator/src/orchestrator.ts:211-313 | through every path the run has the provider, priority, issue, revision and policy its request describes, over the stored task and the run it takes over |
| Admission.ReplaceSwitchesProvider | libs/orchestrator/src/orchestrator.ts:270-304 | switching provider cancels exactly the named queued run and mints the asked one, with one outcome and one dispatch |
| Admission.MintedPipelineIsAuthorized | libs/orchestrator/src/orchestrator.ts:190-313 | whatever path admits it, a minted run works on the expected, authorized pipeline, under the caller's own id and parameters |
| Admission.TaskWritesAdmitted | libs/orchestrator/src/orchestrator.ts:701-759 | close and work updates are admitted exactly on an idle native task; a refresh never installs an older issue |
| TaskWrites.CloseWrites | libs/orchestrator/src/decide.ts:1181-1194 | a close marks an idle open native task closed at that instant and writes nothing else; any other close writes nothing |
| TaskWrites.ClosedRefusesForever | libs/orchestrator/src/decide.ts:199-212 | once a task was closed, after any history, it is closed, has as many runs as then, and refuses every request |
| TaskWrites.WorkWrites | libs/orchestrator/src/decide.ts:1203-1217 | a work update replaces the work of an idle native task and nothing else |
| TaskWrites.RefreshWrites | libs/orchestrator/src/orchestrator.ts:736-759 | a refresh replaces the issue exactly by a newer one of its source, and nothing else |
| Refusals.TaskRefusals | libs/orchestrator/src/decide.ts:1181-1217 | each reason to refuse a close or a work update exactly when it applies, with the live run shown |
| Admission.ObservationsMoveForward | libs/orchestrator/src/decide.ts:292-325 | an observed revision never moves a source clock back, and a stale one changes nothing |
| Admission.RevisionCoalesces | libs/orchestrator/src/decide.ts:326-361 | behind a claimed run a newer revision only becomes desired; behind an unclaimed one it replaces the run |
| Requests.RevisionAnswered | libs/orchestrator/src/decide.ts:292-361 | every revision request on an open task: outrun or no news it changes nothing, repeated it moves the clocks once; newly desired it waits behind a claimed run, replaces an unclaimed one with one outcome and one dispatch, or is minted |
| Requests.NewerIsUncovered | libs/orchestrator/src/decide.ts:303-325 | an observation is newer exactly if some clock of it is not covered |
| Admission.ResendingMintsNothing | libs/orchestrator/src/decide.ts:303-325 | while the task keeps desiring some content, no request resending it mints or changes a run, whatever else happens in between |
| Admission.ResendingKeepsDesire | libs/orchestrator/src/decide.ts:303-325 | a source that only resends leaves the task desiring the same content and every run as it was |
| Admission.IneligibleEndsAttempts | libs/orchestrator/src/decide.ts:365-410 | newer ineligibility withdraws the revision and ends its attempts |
| Requests.InvalidationAnswered | libs/orchestrator/src/decide.ts:365-410 | the newest run is invalidated exactly by an observation that outruns no clock and is newer in one: the desire goes, an unclaimed run is canceled with one outcome, any other only loses its pending triage |
| Lifecycle.ExpiryFollowsDeadline | libs/orchestrator/src/model.ts:783-809 | a live run without external work expires exactly once its lease ran out or its claim's start deadline passed unheard, a queued one never |
| Lifecycle.ConfirmIsIdempotent | libs/orchestrator/src/decide.ts:539-562 | dispatch confirmation is accepted exactly for a live run, and repeating it changes nothing |
| Lifecycle.DispatchHoldsLease | libs/orchestrator/src/decide.ts:539-562 | a dispatched run that nothing queues expires exactly two hours later |
| Lifecycle.ClaimStartsClock | libs/orchestrator/src/decide.ts:134-165 | a claim not heard from expires exactly 15 minutes later |
| Claims.ClaimIsTheExecutors | libs/orchestrator/src/decide.ts:134-165 | a claim answers to its own subject, runner and token and to nobody else, waits for placement exactly if promised, and keeps nothing of the queue state before |
| Claims.ClaimStaysTheExecutors | libs/orchestrator/src/decide.ts:565-1000 | for as long as it stands, over any history, the claim stays that executor's |
| Claims.EnqueuedIsOpen | libs/orchestrator/src/memory-store.ts:702-710 | a run that was never queued is open to claims at once; any other is left alone |
| Claims.ConfirmationStarts | libs/orchestrator/src/decide.ts:539-562 | a confirmation starts a pending run, with one event and a fresh lease, and leaves a running one as it is |
| Lifecycle.HeartbeatHoldsLease | libs/orchestrator/src/decide.ts:626-690 | a claimant's heartbeat is accepted exactly while live and in time, and moves expiry to exactly two hours later |
| Claims.HeartbeatWrites | libs/orchestrator/src/decide.ts:626-690 | with a token or without, exactly when a heartbeat is accepted, and that it writes the lease, the first heartbeat and the claimant's process start, once each, and nothing else |
| Lifecycle.PlacementMovesDeadline | libs/orchestrator/src/decide.ts:565-623 | a placement report moves expiry to 15 minutes on, and while waiting never past the hour |
| Claims.StartupRecorded | libs/orchestrator/src/decide.ts:565-623 | an observation of a claim that was placed or heard from changes nothing; of any other it records its Job, instant and placement |
| Claims.PlacementRecorded | libs/orchestrator/src/decide.ts:693-730 | a placement report records its own instant and nothing else |
| ClaimHistory.PlacementsMoveForward | libs/orchestrator/src/decide.ts:565-623 | over any history within a claim the recorded startup observations are strictly later than one another, each at most a minute old and five seconds ahead |
| ClaimHistory.ReportsMoveForward | libs/orchestrator/src/decide.ts:693-730 | so are its placement reports, each at most thirty seconds old and never ahead |
| Lifecycle.ReportAcceptedInTime | libs/orchestrator/src/decide.ts:741-780 | a claimant's report is accepted exactly while the run is live and in time |
| Reports.ReportAcceptedExactly | libs/orchestrator/src/decide.ts:741-792 | a report is accepted exactly from a live run's claimant or without token, the same as the one that waits if any, and in time counted from the first |
| Reports.RepeatedReportKeepsFirst | libs/orchestrator/src/decide.ts:780-792 | repeating a waiting report keeps the first |
| Reports.ReportCommandAccepted | libs/orchestrator/src/orchestrator.ts:391-476 | with handoff, fallback and cleanup a report is accepted exactly as alone, unless it hands over another run's delivery or another head |
| Refusals.ReportRefusals | libs/orchestrator/src/decide.ts:741-780 | each reason to refuse a report exactly when it applies, and to whom the run is shown |
| Lifecycle.ReportSettles | libs/orchestrator/src/decide.ts:793-813 | the result, marked if overtaken, a free lock, and exactly the triage and handoff effects the outcome asks for |
| Reports.SettlementFrame | libs/orchestrator/src/decide.ts:793-813 | besides result and effects a settlement writes one event, the triage mark and the freed task, nothing else |
| Reports.HandoffRecorded | libs/orchestrator/src/orchestrator.ts:446-476 | the settled run has the handoff its report names, and triage to publish exactly if a successful report asks for it or it was due already, void once overtaken |
| Reports.EffectsAreDue | libs/orchestrator/src/decide.ts:814-838 | every effect of a settlement is due at once, the watch over a delivery exactly a minute later |
| Lifecycle.DeliveryBoundBySuccess | libs/orchestrator/src/decide.ts:814-839 | a delivery is bound, and its effect emitted, exactly by a successful report carrying one |
| Lifecycle.ReportBindsDelivery | libs/orchestrator/src/orchestrator.ts:450-476 | a reported handoff, with fallback or without, is bound to its own run and to the task, with its triage |
| Lifecycle.ReplayedReportShowsResult | libs/orchestrator/src/decide.ts:741-760 | any later report of a finished run is refused with the run and its result |
| Lifecycle.LossRetriedWithinBudget | libs/orchestrator/src/decide.ts:1001-1092 | unless its provider is Goose, a loss is followed by a run exactly when a newer revision overtook it or the loss and attempt budgets last: by the first attempt of that revision, or by a run that repeats the lost one under its own retry key |
| Lifecycle.LossNamesItsDeadline | libs/orchestrator/src/decide.ts:1001-1041 | the audit trail names the actor of a loss and which start deadline was missed |
| Lifecycle.OvertakenRevisionSucceeded | libs/orchestrator/src/decide.ts:414-449 | an overtaken run is followed by exactly one first attempt of the desired revision, on its provider, priority and parameters, unless it bound a delivery |
| Lifecycle.CurrentRevisionRetried | libs/orchestrator/src/decide.ts:414-449 | a run whose revision is still desired is repeated exactly after a failure within its attempts: same provider, priority, parameters and issue, under its retry key |
| Lifecycle.WithdrawnRevisionEnds | libs/orchestrator/src/decide.ts:414-449 | a run without revision, or whose revision was withdrawn, is followed by no attempt |
| Lifecycle.FirstEligibleIsFirst | libs/orchestrator/src/provider-fallback.ts:22-36 | the choice is the first listed pipeline that is untried, authorized and available, and exists exactly when one is |
| Lifecycle.FallbackPrefersAvailable | libs/orchestrator/src/provider-fallback.ts:109-133 | an available alternative is preferred, and an authorized one is found whenever any is left |
| Lifecycle.SuccessorStartsAfresh | libs/orchestrator/src/provider-fallback.ts:40-90 | a fallback successor resumes nothing, keeps the rest, and records attempt and cause |
| Reports.FallbackFollowsExactly | libs/orchestrator/src/provider-fallback.ts:92-141 | a report is followed by a run elsewhere exactly after a limit or capacity failure with an authorized alternative left, and the successor names that failure |
| Lifecycle.RerouteMovesWaitingRun | libs/orchestrator/src/provider-fallback.ts:145-209 | a reroute succeeds exactly for a claimable run of a cooling provider with an alternative left |
| Reports.RerouteWrites | libs/orchestrator/src/provider-fallback.ts:145-209 | a reroute cancels the queued run naming the cooldown, publishes no outcome for it, and dispatches its successor on the first alternative with room |
| Lifecycle.ExitNeedsClaimant | libs/orchestrator/src/decide.ts:965-999 | only the claiming executor with its token can lose a live run early |
| Lifecycle.ExitFreesExecutor | libs/orchestrator/src/decide.ts:1001-1041 | an exit frees the executor unless the run used Codex credentials, whose claim stays for cleanup |
| Lifecycle.SettledExitRetires | libs/orchestrator/src/decide.ts:1121-1162 | a settled worker's exit retires its claim, or is remembered so that finishing the cleanup retires it |
| Claims.SettledExitAccepted | libs/orchestrator/src/decide.ts:965-1000 | the exit of a settled run's executor is taken exactly from its own subject and runner, with its token or none, unless the pipeline is Codex |
| Refusals.ExitRefusals | libs/orchestrator/src/decide.ts:965-1000 | each reason to refuse an exit exactly when it applies |
| Claims.ExpiryKeepsClaim | libs/orchestrator/src/decide.ts:1001-1041 | a run lost to its deadline keeps its claim |
| Lifecycle.ReservationBlocksSettlement | libs/orchestrator/src/credential-operation.ts:23-58 | who may reserve an operation, both ways; while it is open the run is not canceled, expired, lost or released |
| Operations.ReservationRecorded | libs/orchestrator/src/credential-operation.ts:23-58 | a reservation is recorded as asked, at its start, recoverable after five minutes, and writes nothing else |
| Operations.PrepareAccepted | libs/orchestrator/src/credential-operation.ts:83-128 | a mutation is prepared exactly under the next number, with none outstanding, a hundred at most |
| Operations.AcknowledgeAccepted | libs/orchestrator/src/credential-operation.ts:83-145 | it is acknowledged exactly under its own number, and the receipt it brings is the one on record |
| Operations.MutationCycle | libs/orchestrator/src/credential-operation.ts:113-130 | prepared and acknowledged, the operation is as before, one mutation further on |
| Operations.RecoveryPutOff | libs/orchestrator/src/credential-operation.ts:128-130 | a failed recovery puts the next off by five minutes and changes nothing else |
| Operations.FinishAccepted | libs/orchestrator/src/credential-operation.ts:98-159 | without a deferred report, exactly when a finish is accepted, that it records its restore, and that it retires exactly a claim its executor left behind |
| Operations.DeferredFinishRestores | libs/orchestrator/src/credential-operation.ts:146-157 | a finish that settles a deferred report records its restore too and leaves no operation |
| Operations.FinishLeavesNone | libs/orchestrator/src/credential-operation.ts:98-159 | no finish leaves an operation, not even a cleanup of the run it settles |
| ClaimHistory.RestoreStands | libs/orchestrator/src/credential-operation.ts:128-159 | a restore recorded for a claim stands over any history within the claim |
| Lifecycle.StaleCloseIsFenced | libs/orchestrator/src/orchestrator.ts:664-699 | a close cancels exactly an unclaimed run that predates it, for the issue still on record |
| Refusals.CutoffRefusals | libs/orchestrator/src/orchestrator.ts:664-699 | an older close is refused for an issue that moved on, a claimed run or a newer one, each exactly when it applies |
| Lifecycle.ObservationsNeverRenew | libs/orchestrator/src/decide.ts:693-730 | a placement observation never moves expiry and never goes back in time |
| Lifecycle.CancelAccepted | libs/orchestrator/src/decide.ts:843-889 | a cancel is accepted exactly for a live run without external work, and mints nothing |
| Reports.CancelWrites | libs/orchestrator/src/decide.ts:843-889 | a cancellation writes the canceled run with its reason, its one outcome and the freed task, which only a native one closes |
| Refusals.CancelRefusals | libs/orchestrator/src/decide.ts:843-870 | each reason to refuse a cancellation exactly when it applies |
| Lifecycle.NativeCancelCloses | libs/orchestrator/src/decide.ts:857-889 | a native cancel closes the task exactly when its delivery was waiting |
| Lifecycle.ReleaseReopens | libs/orchestrator/src/memory-store.ts:770-798 | a released run is claimable again exactly from its deferral on, and its old token is dead |
| Lifecycle.CorrectedOnce | libs/orchestrator/src/delivery.ts:76-115 | a waiting delivery is corrected at most once, by a run naming the bound one |
| Deliveries.ObservationAccepted | libs/orchestrator/src/delivery.ts:23-46 | an observation counts exactly at the head task and run agree on, and a correction only by its authority and once |
| Deliveries.ObservationWrites | libs/orchestrator/src/delivery.ts:44-75 | a revision, a merge and a withdrawal write task and run alike, with the effect of a native completion; anything else writes nothing |
| Deliveries.CorrectionAsks | libs/orchestrator/src/delivery.ts:76-115 | a correction asks the same provider, in the words of the observation, on top of the bound run and under its policy |
| Lifecycle.RevisedHeadMoves | libs/orchestrator/src/delivery.ts:34-53 | after a revision only the new head is recognized |
| Lifecycle.MergeCompletes | libs/orchestrator/src/delivery.ts:44-66 | a merged delivery never changes again |
| Lifecycle.WithdrawnLetsGo | libs/orchestrator/src/delivery.ts:67-75 | after a withdrawal any request passes the delivery gate |
| Lifecycle.BackoffIsHonored | libs/orchestrator/src/model.ts:694-744 | an entry put back with a retry time is not due before it unless woken |
| Findings.FallbackDropsRetry | libs/orchestrator/src/provider-fallback.ts:83-88 | a report with fallback commits every run it dispatches, exactly unless the run was owed a revision retry too |
| Findings.FinishDropsRetry | libs/orchestrator/src/orchestrator.ts:480-556 | so does the finish of a deferred report, on the same inputs |
| Findings.DroppedRetryExample | libs/orchestrator/src/decide.ts:443-448 | an input on which r2 is dispatched and only r1 and r3 are stored |
| Findings.LateReportWithoutTokenStalls | libs/orchestrator/src/decide.ts:766-792 | a late tokenless report is accepted and its proven finish refused |
| MemoryStores.MemoryStore.Apply | libs/orchestrator/src/memory-store.ts:333-374 | writes the whole decision exactly when the version is the one read, else nothing; its entries join the queue as they are added |
| MemoryStores.MemoryStore.TransactRun | libs/orchestrator/src/memory-store.ts:284-324 | takes exactly the run's own ledger through one step, changes no other task, keeps every ledger good, and adds to the queue only what commits may |
| MemoryStores.MemoryStore.TransactRequest | libs/orchestrator/src/memory-store.ts:182-282 | the same for a request, its binding and its receipt |
| MemoryStores.MemoryStore.EnqueueRun | libs/orchestrator/src/memory-store.ts:702-710 | refines the ledger's enqueue |
| MemoryStores.MemoryStore.ClaimQueuedRun | libs/orchestrator/src/memory-store.ts:734-768 | claims exactly an admission candidate, for the given subject, runner and token and no other |
| MemoryStores.MemoryStore.ReleaseQueuedRunClaim | libs/orchestrator/src/memory-store.ts:770-798 | releases exactly the claimant's live run without external work |
| MemoryStores.MemoryStore.ClaimPendingOutbox | libs/orchestrator/src/memory-store.ts:525-573 | leases exactly the fair selection and returns what the outbox now holds |
| MemoryStores.MemoryStore.SettleOutbox | libs/orchestrator/src/memory-store.ts:575-580 | settles exactly for the owner of the lease, and the entry is then as it was told |
| MemoryStores.MemoryStore.WakeOutbox | libs/orchestrator/src/memory-store.ts:582-588 | refines the queue's wake, and reports exactly whether an entry was put off |
| MemoryStores.StateSliced | libs/orchestrator/src/memory-store.ts:195-265 | the snapshot read from the maps is the one of the task's own ledger |
| Tables.AppliedSlices | libs/orchestrator/src/memory-store.ts:333-374 | applying a decision commits to its own task's ledger and to no other |
| Sweeps.Sweeper.SweepExpired | libs/orchestrator/src/orchestrator.ts:780-801 | settles every expired live run as lost to expiry except those with external work open, and touches no other run |
| Sweeps.Sweeper.RerouteQueued | libs/orchestrator/src/orchestrator.ts:560-638 | attempts exactly the batch at the cursor, each attempt being its run's reroute; those that succeed are canceled for a successor elsewhere, no other run changes, and the cursor moves past the batch, refusals included |
| Sweeps.Sweeper.TransactTask | libs/orchestrator/src/orchestrator.ts:821-834 | a close, work update or issue refresh takes exactly its task's ledger through one step |
| Sweeps.EveryCandidateIsTried | libs/orchestrator/src/orchestrator.ts:586-604 | every candidate is in the batch of one of the next sweeps, before their batches have gone once around the list |
| Keys.RunKeyInjective | libs/orchestrator/src/model.ts:175-182 | a run id string names one run of one task |
| Keys.HistoryKeyInjective | libs/orchestrator/src/model.ts:229-237 | a caller's text never collides with an orchestrator-owned request key |
| Keys.RequestKeyInjective | libs/orchestrator/src/memory-store.ts:376-378 | the JSON request key names one request of one task |
| Keys.BindingKeyInjective | libs/orchestrator/src/memory-store.ts:380-382 | the JSON binding key names one binding of one task |
| Keys.ReceiptKeyInjective | libs/orchestrator/src/memory-store.ts:227-231 | the receipt key names one revision of one task, whatever the revision's text |
| Keys.EntryKeyInjective | libs/orchestrator/src/decide.ts:1265-1299 | an outbox entry id names one effect of one run |
| SweepCursor.NoneTwiceBefore | apps/runner-autoscaler/queue_sweep_cursor.go:19-35 | while a Job stays listed no other name is visited twice before it, whatever Jobs come and go |
| SweepCursor.EveryJobIsReached | apps/runner-autoscaler/queue_sweep_cursor.go:10-13 | if each sweep attempts one Job, a Job that stays listed is attempted within as many sweeps as there are names |
| SweepCursor.RotationClimbs | apps/runner-autoscaler/queue_sweep_cursor.go:19-29 | a rotation started after the last name climbs cyclically towards any listed name |
| SweepCursor.LessByFirstDifference | apps/runner-autoscaler/queue_sweep_cursor.go:19-29 | names are ordered by their first difference, a prefix before what it begins |
| SweepCursor.OrderedStartsAfter | apps/runner-autoscaler/queue_sweep_cursor.go:19-29 | a sweep begins with the next name after the last, or the least of all when there is none |
| SweepCursor.OrderedAscends | apps/runner-autoscaler/queue_sweep_cursor.go:19-29 | from there the names ascend and wrap once |
| SweepCursor.Cursor.Run | apps/runner-autoscaler/queue_kubernetes.go:749-754 | a budgeted sweep visits a prefix of the rotated list and remembers its last name |
| Histograms.HistogramWindow.Observe | apps/runner-autoscaler/histogram_window.go:67-112 | keeps the window's invariant for any sample, and publishes 1 to 30 non-negative intervals of one width, one after the other, or nothing |
| Histograms.RestartsExactly | apps/runner-autoscaler/histogram_window.go:72-78 | the window starts again exactly after more than two minutes, or when the report is gone, its bounds differ or a count is smaller |
| Histograms.NextIsLongest | apps/runner-autoscaler/histogram_window.go:79-91 | a sample within 55 seconds adds no snapshot; any other leaves the longest end of at most 31 snapshots within the last 30 minutes |
| Histograms.Telescopes | apps/runner-autoscaler/histogram_window.go:92-111 | per bucket the intervals sum to latest minus oldest snapshot |
| Histograms.NeverNegative | apps/runner-autoscaler/histogram_window.go:114-134 | on one run of the counters no interval is negative |
| Histograms.LatencyRecorder.Record | apps/runner-autoscaler/work_api_latency.go:31-43 | counts a duration in exactly one bucket |
| Histograms.LatencyRecorder.Report | apps/runner-autoscaler/work_api_latency.go:45-57 | reports for each bound how many recorded durations it covers |
| Histograms.RecorderIntervals | apps/runner-autoscaler/work_api_latency.go:31-57 | fed by the recorder an interval is cumulative and counts exactly the durations between its snapshots |
| JobStart.StartsAtMostOnce | apps/runner-autoscaler/queue_kubernetes.go:620-742 | under any interleaving an executor unsuspends a Job uid at most once, and never one anyone unsuspended before |
| JobStart.UnsuspendedAtMostOnce | apps/runner-autoscaler/queue_kubernetes.go:666-671 | if only executors unsuspend Jobs, no Job is unsuspended twice |
| JobStart.StartsOriginal | apps/runner-autoscaler/queue_kubernetes.go:650-728 | an update that starts a Job takes the very Job that was read from generation 1 to 2, unattempted and not being deleted |
| JobStart.ResumeStarts | apps/runner-autoscaler/queue_kubernetes.go:650-728 | read and resumed undisturbed, a Job is started exactly if it is the one launched, in its first suspended form, without Pods, with a verified credential of its own |
| JobStart.CreatedStarts | apps/runner-autoscaler/queue_kubernetes.go:620-728 | a Job created for a claim and left alone is started by its executor, on its own verified credential |
| JobStart.ResumeReports | apps/runner-autoscaler/queue_kubernetes.go:660-712 | a resume ends quietly exactly for its own Job that is going, running, attempted or has Pods, and otherwise starts it or reports a conflict |
| JobStart.RetiresExactVersion | apps/runner-autoscaler/queue_claim_status.go:110-137 | a retirement deletes exactly the version whose claim was reported settled, never a replacement |
| JobStart.RetirementDeletes | apps/runner-autoscaler/queue_claim_status.go:110-137 | asked about and retired undisturbed, a Job is deleted exactly if its claim settled and its executor left it in that form |
| JobStart.RetiredNeverStarts | apps/runner-autoscaler/queue_claim_status.go:106-137 | a Job retired before an executor started it is never started by one |

## Left out

- The Firestore stores: they rest on the Firestore library's transactions; the memory store is the reference implementation.
- Fair selection among queued runs and priority turns: the claim takes any admission candidate.
- Parsing of cooldown messages, provider availability and requester grants: inputs of the step that uses them.
- Zod parsing, payload limits, tracker and GitHub projections, list and paging reads, lifecycle metrics, schedules: no decision on a task or run reads them.
- Operator intervention records, free-text routing reasons and the reading aids of a result: carried by the program, read by no decision.
- JSON key order: structural equality stands for comparing serialized values; Unicode whitespace beyond ASCII is not trimmed.
- Internal callers that pass another request source to `request`: the model's requests are a caller's.
- Effects.EmittedOnce: does not cover issue-start entries, because a released and reclaimed run announces its start again; `OutboxFence.IssueStartEmitted` says exactly when.
- Sweeps.Sweeper.SweepExpired: one instant serves the whole sweep, where the program reads the clock again for each run.
- Sweeps.Sweeper.RerouteQueued: the candidate list is given, where the program filters it from a prior read; the transactions recheck it.
- Histograms.LatencyRecorder.Record: durations are exact reals and counts unbounded integers; floating-point rounding and 64-bit overflow are not modelled.
- Job launch bookkeeping: holding admission slots, tracking retiring Jobs' Pods and reporting exits.
- JobStart.StartsAtMostOnce: the API server is reduced to versioned objects with compare-and-set; the credential evidence of a resume is an input of the step.
- HTTP clients, token sources, Prometheus metrics, Job specification building, host inventory, the exporter, the console and build tools: I/O and plumbing.
