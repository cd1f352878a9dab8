/** Pure decision logic of `decide.ts`: from the current task and run and one
    input to the next state and its effects, or a refusal. */
module Decide {
  import opened Model

  const RUN_START_TIMEOUT_MS := 15 * 60_000
  const RUN_PLACEMENT_WAIT_MAX_MS := 60 * 60_000
  const RUN_LEASE_MS := 2 * 60 * 60_000
  const MAX_AUTO_RETRIES := 2

  /** `additionalRun` models `additionalRuns`: every decision commits at most one. */
  datatype Decision = Decision(
    task: Task,
    run: Option<Run>,
    additionalRun: Option<Run>,
    outbox: seq<OutboxEntry>)

  datatype Reason =
    | TaskBusy | DuplicateRequest | UnknownRun | RunAlreadyClaimed | RunNewerThanCutoff
    | RunNotLive | PipelineForbidden | StaleProviderRequest | StaleLease | TaskClosed
    | MissingWork | WorkSpecMismatch | UnknownTask | StaleIssueSource | NotNative
    | CredentialOperationPending | NotClaimant

  /** `Threw` is an exception inside a decision: nothing is committed. */
  datatype Outcome =
    | Decided(decision: Decision)
    | Refused(reason: Reason, existingRun: Option<Run>)
    | Threw

  function Refuse(reason: Reason): Outcome {
    Refused(reason, None)
  }

  // ------------------------------------------------------------- building blocks

  function ReleaseLock(task: Task, runId: RunId, now: int): Task {
    if task.activeRunId == Some(runId) then task.(activeRunId := None, updatedAt := now)
    else task.(updatedAt := now)
  }

  function ResetLossBudgets(task: Task): Task {
    task.(consecutiveLost := 0)
  }

  /** Effects of settling a run: its outcome, and the two optional follow-ups. */
  function SettleEffects(run: Run, now: int): seq<OutboxEntry> {
    [NewEntry(ReportOutcome, run.runId, now)]
    + (if run.state.Finished? && run.result.Some? && run.result.value.ok && run.triagePublication == Some(TriagePending)
       then [NewEntry(PublishTriage, run.runId, now)] else [])
    + (if run.state.Finished? && run.result.Some? && run.result.value.summary == Some(Park)
          && run.result.value.message.Some? && !Blank(run.result.value.message.value)
       then [NewEntry(HandoffSummary, run.runId, now)] else [])
  }

  function Settle(releasedTask: Task, settledRun: Run, now: int): Decision {
    Decision(releasedTask, Some(settledRun), None, SettleEffects(settledRun, now))
  }

  function AddEvent(run: Run, at: int, to: RunState, actor: Actor, note: Option<Note>): seq<RunEvent> {
    run.events + [RunEvent(at, to, actor, note)]
  }

  /** The policy a minted run carries; an empty alternative list is dropped. */
  function MintedPolicy(input: Option<FallbackInput>, pipeline: Pipeline, runId: RunId): Option<FallbackPolicy> {
    match input
    case None => None
    case Some(Authorized(principal, repository, pipelines)) =>
      if pipelines == [] then None
      else Some(FallbackPolicy(principal, repository, pipelines, [pipeline], runId, None, None))
    case Some(Carried(policy)) =>
      if policy.allowedPipelines == [] then None else Some(policy)
  }

  datatype MintInput = MintInput(
    now: int,
    requestId: RequestId,
    requestSource: RequestSource,
    pipeline: Pipeline,
    priority: Priority,
    params: Params,
    issue: Option<Issue>,
    providerFallback: Option<FallbackInput>,
    sourceRevision: Option<WorkRevision>,
    revisionAttempt: Option<nat>)

  function MintedRun(task: Task, input: MintInput): Run {
    var runId := RunId(task.task, task.runCount + 1);
    Run(runId, Pending, input.pipeline, input.priority, input.requestId, input.requestSource, input.params,
        input.issue, input.sourceRevision,
        if input.sourceRevision.None? then None
        else if input.revisionAttempt.Some? then input.revisionAttempt else Some(1),
        MintedPolicy(input.providerFallback, input.pipeline, runId),
        None, None, None, None, None, None, None,
        input.now + RUN_LEASE_MS, None,
        [RunEvent(input.now, Pending, ByRequest, None)], input.now, input.now)
  }

  /** The task with its next run counted and active, that run pending, and its dispatch entry. */
  function MintRun(task: Task, input: MintInput): Decision {
    var run := MintedRun(task, input);
    Decision(
      task.(activeRunId := Some(run.runId), runCount := task.runCount + 1, updatedAt := input.now),
      Some(run), None, [NewEntry(DispatchRun, run.runId, input.now)])
  }

  // -------------------------------------------------------------------- requests

  /** An omitted `issue` falls back to the task's; a given one is taken verbatim. */
  datatype IssueInput = IssueOmitted | IssueGiven(issue: Option<Issue>)

  datatype RequestArgs = RequestArgs(
    now: int,
    taskId: TaskId,
    requestId: RequestId,
    requestSource: RequestSource,
    pipeline: Pipeline,
    priority: Option<Priority>,
    params: Params,
    work: Option<string>,
    issue: IssueInput,
    providerFallback: Option<FallbackInput>,
    sourceRevision: Option<WorkRevision>)

  predicate AttributedReply(params: Params) {
    params.mode == Some(Reply) && params.replyPrincipal.Some?
  }

  /** The delivery gate: a waiting delivery admits only an attributed reply or
      an internal successor of the bound run. */
  predicate DeliveryAdmits(task: Task, source: RequestSource, params: Params) {
    DeliveryWaiting(task) ==>
      || AttributedReply(params)
      || (!source.Caller? && params.deliveryPredecessor == Some(task.delivery.value.runId))
  }

  function GivenIssue(input: IssueInput): Option<Issue> {
    if input.IssueGiven? then input.issue else None
  }

  function NewestIssue(previous: Option<Issue>, given: Option<Issue>): Option<Issue> {
    if given.Some? && (previous.None? || given.value.updatedAt > previous.value.updatedAt) then given else previous
  }

  /** The task a request starts from: fields it does not list are dropped. */
  function BaseTask(a: RequestArgs, task: Option<Task>, work: string, issue: Option<Issue>): Task {
    Task(a.taskId,
         if task.Some? then task.value.delivery else None,
         None,
         if task.Some? then task.value.runCount else 0,
         if task.Some? then task.value.consecutiveLost else 0,
         work, issue,
         a.sourceRevision,
         if a.sourceRevision.Some? then a.sourceRevision.value.observedAt else None,
         if task.Some? then task.value.providerRouting else None,
         None, a.now)
  }

  /** Refused under a live run, a closed task, a delivery of others or missing work; else
      the minted run and the task it was minted from. */
  function RequestRun(a: RequestArgs, task: Option<Task>, activeRun: Option<Run>): Outcome {
    if activeRun.Some? && IsLive(activeRun.value.state) then
      Refused(if activeRun.value.requestSource == a.requestSource && activeRun.value.requestId == a.requestId
              then DuplicateRequest else TaskBusy, activeRun)
    else if task.Some? && task.value.closedAt.Some? then Refuse(TaskClosed)
    else if task.Some? && !DeliveryAdmits(task.value, a.requestSource, a.params) then Refuse(TaskBusy)
    else if task.None? && a.work.None? then Refuse(MissingWork)
    else
      var work := if task.Some? then task.value.work else a.work.value;
      var previousIssue := if task.Some? then task.value.issue else None;
      var given := GivenIssue(a.issue);
      if previousIssue.Some? && given.Some? && previousIssue.value.source != given.value.source then Threw
      else
        var issue := NewestIssue(previousIssue, given);
        Decided(MintRun(
          BaseTask(a, task, work, issue),
          MintInput(a.now, a.requestId, a.requestSource, a.pipeline,
                    if a.priority.Some? then a.priority.value else Normal,
                    a.params,
                    if a.issue.IssueGiven? then a.issue.issue else issue,
                    a.providerFallback, a.sourceRevision, None)))
  }

  /** `a ?? ''` compared as text: an unobserved source is before every instant. */
  predicate ObservedBefore(observed: map<string, int>, source: string, at: int) {
    source !in observed || observed[source] < at
  }

  predicate SomeOlder(known: map<string, int>, observed: map<string, int>) {
    exists source :: source in known && ObservedBefore(observed, source, known[source])
  }

  predicate SomeNewer(known: map<string, int>, observed: map<string, int>) {
    exists source :: source in observed && ObservedBefore(known, source, observed[source])
  }

  function Known(task: Task): map<string, int> {
    if task.sourceObservedAt.Some? then task.sourceObservedAt.value else map[]
  }

  function TaskOnly(task: Task): Outcome {
    Decided(Decision(task, None, None, []))
  }

  /** A settlement followed by a minted successor, committed together. */
  function Joined(settled: Decision, minted: Decision): Decision {
    Decision(minted.task, minted.run, settled.run, settled.outbox + minted.outbox)
  }

  /** The same commit with the settled run listed first. */
  function Followed(settled: Decision, minted: Decision): Decision {
    Decision(minted.task, settled.run, minted.run, settled.outbox + minted.outbox)
  }

  /** Drops a stale or repeated revision, makes it the desired one behind a claimed run, puts
      it in place of an unclaimed run, or mints it on an idle task. */
  function RequestRevisionRun(a: RequestArgs, task: Option<Task>, activeRun: Option<Run>): Outcome
    requires a.sourceRevision.Some?
  {
    var revision := a.sourceRevision.value;
    if task.Some? && task.value.closedAt.Some? then Refuse(TaskClosed)
    else if task.Some? && revision.observedAt.Some? && SomeOlder(Known(task.value), revision.observedAt.value) then
      TaskOnly(task.value)
    else if task.Some? && revision.observedAt.Some?
            && task.value.desiredRevision.Some? && task.value.desiredRevision.value.input == revision.input then
      if task.value.sourceObservedAt == revision.observedAt then Refuse(DuplicateRequest)
      else TaskOnly(task.value.(sourceObservedAt := revision.observedAt))
    else if task.Some? && revision.observedAt.Some? && task.value.sourceObservedAt.Some?
            && !SomeNewer(Known(task.value), revision.observedAt.value) then
      TaskOnly(task.value)
    else if task.Some? && activeRun.Some? && IsLive(activeRun.value.state) then
      var desiredTask := task.value.(
        desiredRevision := a.sourceRevision,
        sourceObservedAt := if revision.observedAt.Some? then revision.observedAt else task.value.sourceObservedAt,
        updatedAt := a.now);
      if IsClaimed(activeRun.value) then TaskOnly(desiredTask)
      else
        var canceled := CancelRun(a.now, desiredTask, activeRun.value, Some(SupersededByRevision), None);
        if !canceled.Decided? then canceled
        else
          var next := RequestRun(a, Some(canceled.decision.task), None);
          if !next.Decided? then next
          else Decided(Joined(canceled.decision, next.decision))
    else RequestRun(a, task, activeRun)
  }

  /** A newer observation withdraws the desired revision: the unclaimed run is canceled, a
      claimed one keeps running with its pending triage superseded. */
  function InvalidateSourceRevision(now: int, task: Task, run: Run, observedAt: map<string, int>): Outcome {
    if run.runId != RunId(task.task, task.runCount) then Refuse(StaleLease)
    else if run.sourceRevision.None? then Refuse(WorkSpecMismatch)
    else if SomeOlder(Known(task), observedAt) || !SomeNewer(Known(task), observedAt) then TaskOnly(task)
    else
      var invalidated := task.(desiredRevision := None, sourceObservedAt := Some(observedAt), updatedAt := now);
      if IsLive(run.state) && !IsClaimed(run) then
        CancelRun(now, invalidated, run, Some(SourceIneligible), None)
      else if run.triagePublication == Some(TriagePending) then
        Decided(Decision(invalidated,
                         Some(run.(triagePublication := Some(TriageSuperseded), updatedAt := now)), None, []))
      else TaskOnly(invalidated)
  }

  function Attempt(run: Run): nat {
    if run.revisionAttempt.Some? then run.revisionAttempt.value else 1
  }

  /** The task desires another revision than the one this run carries. */
  predicate IsSuperseded(task: Task, run: Run) {
    && run.sourceRevision.Some? && task.desiredRevision.Some?
    && run.sourceRevision.value.key != task.desiredRevision.value.key
  }

  predicate RetriesRevision(task: Task, run: Run) {
    && run.sourceRevision.Some? && task.desiredRevision.Some?
    && run.sourceRevision.value.key == task.desiredRevision.value.key
    && run.state.Finished? && run.result.Some? && !run.result.value.ok
    && Attempt(run) <= MAX_AUTO_RETRIES
  }

  /** Is a first attempt of another revision due, or the next one of this? */
  predicate AdvancesRevision(task: Task, run: Run) {
    task.closedAt.None? && (IsSuperseded(task, run) || RetriesRevision(task, run))
  }

  function AdvanceInput(task: Task, run: Run, now: int): MintInput
    requires AdvancesRevision(task, run)
  {
    var superseded := IsSuperseded(task, run);
    MintInput(now,
              if superseded then Raw(task.desiredRevision.value.key) else RetryOf(run.runId),
              if superseded then Caller else AutoRetry,
              run.pipeline, run.priority, run.params,
              if superseded then task.issue else run.issue,
              None, task.desiredRevision,
              Some(if superseded then 1 else Attempt(run) + 1))
  }

  /** The decision joined by the mint of the attempt that is due, or unchanged. */
  function AdvanceSourceRevision(decision: Decision, now: int): Decision
    requires decision.run.Some?
  {
    var run := decision.run.value;
    if !AdvancesRevision(decision.task, run) then decision
    else Followed(decision, MintRun(ResetLossBudgets(decision.task), AdvanceInput(decision.task, run, now)))
  }

  // ---------------------------------------------------------- live-run transitions

  function ConfirmDispatch(now: int, task: Task, run: Run): Outcome {
    if run.state.Running? then Decided(Decision(task, Some(run), None, []))
    else if !run.state.Pending? then Refuse(RunNotLive)
    else Decided(Decision(task.(updatedAt := now),
                          Some(run.(state := Running,
                                    leaseExpiresAt := now + RUN_LEASE_MS,
                                    events := AddEvent(run, now, Running, ByDispatch, None),
                                    updatedAt := now)),
                          None, []))
  }

  /** The run with a new claim: its lease and start deadline count from `now`, and nothing
      of the queue state it had remains. */
  function ClaimQueuedRun(run: Run, now: int, claimedBy: string, subject: string, tokenHash: string,
                          placementAware: bool): Run {
    run.(leaseExpiresAt := now + RUN_LEASE_MS,
         updatedAt := now,
         queue := Some(RunQueue(Claimed, None, None, Some(now), Some(now + RUN_START_TIMEOUT_MS),
                                if placementAware then Some(StartupPlacement(false, now, None)) else None,
                                None, None, Some(claimedBy), Some(subject), Some(tokenHash))))
  }

  datatype Claimant = Claimant(subject: string, runner: string, claimFingerprint: Option<string>)

  predicate OwnsClaim(run: Run, claimant: Claimant) {
    && claimant.claimFingerprint.Some?
    && IsClaimant(run, claimant.claimFingerprint.value)
    && run.queue.value.claimedBy == Some(claimant.runner)
    && run.queue.value.claimedBySubject == Some(claimant.subject)
  }

  function PlacementStartDeadline(now: int, claimedAt: Option<int>): int {
    var renewed := now + RUN_START_TIMEOUT_MS;
    if claimedAt.None? || renewed <= claimedAt.value + RUN_PLACEMENT_WAIT_MAX_MS then renewed
    else claimedAt.value + RUN_PLACEMENT_WAIT_MAX_MS
  }

  /** Records newer evidence about the claim's Job and moves its start deadline; once placed
      or heard from, nothing changes. */
  function ObserveStartupPlacement(now: int, task: Task, run: Run, claimant: Claimant,
                                   jobUid: string, observedAt: int, placed: bool): Outcome {
    if !OwnsClaim(run, claimant) || run.queue.value.startupPlacement.None?
       || (run.queue.value.startupPlacement.value.jobUid.Some?
           && run.queue.value.startupPlacement.value.jobUid.value != jobUid) then Refuse(NotClaimant)
    else if !IsLive(run.state) then Refuse(RunNotLive)
    else if task.activeRunId != Some(run.runId) || RecoveryDeadlineElapsed(run, now) then Refuse(StaleLease)
    else
      var queue := run.queue.value;
      if observedAt > now + 5_000 || now - observedAt > 60_000
         || observedAt <= queue.startupPlacement.value.observedAt then Refuse(StaleLease)
      else if queue.firstHeartbeatAt.Some? || queue.startupPlacement.value.placed then
        Decided(Decision(task, Some(run), None, []))
      else
        Decided(Decision(task,
          Some(run.(
            queue := Some(queue.(
              startupPlacement := Some(StartupPlacement(placed, observedAt, Some(jobUid))),
              startDeadlineAt := Some(if placed then now + RUN_START_TIMEOUT_MS
                                      else PlacementStartDeadline(now, queue.claimedAt)))),
            leaseExpiresAt := now + RUN_LEASE_MS,
            updatedAt := now)),
          None, []))
  }

  /** Two more hours from `now`; the first one under a claim records the heartbeat, and the
      first with a started process may announce the issue. */
  function RenewLease(now: int, task: Task, run: Run, claimFingerprint: Option<string>,
                      providerStarted: bool): Outcome {
    if claimFingerprint.Some? && !IsClaimant(run, claimFingerprint.value) then Refuse(NotClaimant)
    else if !IsLive(run.state) then Refuse(RunNotLive)
    else if task.activeRunId != Some(run.runId) then Refuse(StaleLease)
    else if StartDeadlineElapsed(run, now) then Refuse(StaleLease)
    else if claimFingerprint.Some? && RecoveryDeadlineElapsed(run, now) then Refuse(StaleLease)
    else
      var starts := providerStarted && claimFingerprint.Some? && IsClaimed(run)
                    && run.queue.value.providerProcessStartedAt.None?;
      var queue :=
        if !IsClaimed(run) then run.queue
        else Some(run.queue.value.(
               firstHeartbeatAt := if run.queue.value.firstHeartbeatAt.Some? then run.queue.value.firstHeartbeatAt
                                   else Some(now),
               providerProcessStartedAt := if starts then Some(now) else run.queue.value.providerProcessStartedAt));
      Decided(Decision(task,
        Some(run.(queue := queue, leaseExpiresAt := now + RUN_LEASE_MS, updatedAt := now)), None,
        if starts && run.issue.Some? && run.issue.value.linear && run.sourceRevision.None?
        then [NewEntry(IssueStart, run.runId, now)] else []))
  }

  /** Records when the executor last saw the run's placement, and nothing else. */
  function ObservePlacement(now: int, task: Task, run: Run, claimant: Claimant, observedAt: int): Outcome {
    if !OwnsClaim(run, claimant) then Refuse(NotClaimant)
    else if !IsLive(run.state) then Refuse(RunNotLive)
    else if task.activeRunId != Some(run.runId) || RecoveryDeadlineElapsed(run, now) then Refuse(StaleLease)
    else if observedAt > now || now - observedAt > 30_000
            || (run.queue.value.placementObservedAt.Some?
                && observedAt < run.queue.value.placementObservedAt.value) then
      Refuse(StaleLease)
    else
      Decided(Decision(task, Some(run.(queue := Some(run.queue.value.(placementObservedAt := Some(observedAt))))),
                       None, []))
  }

  /** Equal in all but the suggested human actions. */
  predicate SameReport(a: RunResult, b: RunResult) {
    a.ok == b.ok && a.summary == b.summary && a.ref == b.ref && a.message == b.message && a.relatedRefs == b.relatedRefs
  }

  /** The run's own revision is no longer the one the task desires. */
  predicate RevisionMoved(task: Task, run: Run) {
    run.sourceRevision.Some?
    && (task.desiredRevision.None? || task.desiredRevision.value.key != run.sourceRevision.value.key)
  }

  /** Triage compares keys that may both be absent. */
  predicate TriageMoved(task: Task, run: Run) {
    || RevisionMoved(task, run)
    || (run.sourceRevision.None? && task.desiredRevision.Some?)
  }

  function RecordedResult(task: Task, run: Run, result: RunResult): RunResult {
    if RevisionMoved(task, run) then result.(summary := Some(Superseded)) else result
  }

  function SettledByReport(now: int, task: Task, run: Run, result: RunResult): Run {
    run.(credentialPendingResult := None,
         state := Finished,
         triagePublication := if run.triagePublication.Some? && TriageMoved(task, run) then Some(TriageSuperseded)
                              else run.triagePublication,
         result := Some(RecordedResult(task, run, result)),
         events := AddEvent(run, now, Finished, ByReport, None),
         updatedAt := now)
  }

  /** One entry for a delivery that completes on a native task, none otherwise. */
  function FinalDeliveryOutbox(task: Task, run: Run, delivery: DeliveryBinding, now: int): seq<OutboxEntry> {
    if !task.task.Work? || !delivery.state.Complete? then [] else [NewEntry(DeliveryOutcome, run.runId, now)]
  }

  function DeliveryEffects(task: Task, run: Run, delivery: DeliveryBinding, now: int): seq<OutboxEntry> {
    if run.runId.task.Work? && delivery.state.Complete? then FinalDeliveryOutbox(task, run, delivery, now)
    else [NewEntry(MonitorDelivery, run.runId, now).(nextAttemptAt := Some(now + 60_000))]
  }

  /** The settlement of an accepted report, without any successor. */
  function ReportSettlement(now: int, task: Task, run: Run, result: RunResult): Decision {
    var settled := SettledByReport(now, task, run, result);
    var decision := Settle(ResetLossBudgets(ReleaseLock(task, run.runId, now)), settled, now);
    if result.ok && run.delivery.Some? then
      decision.(task := decision.task.(delivery := run.delivery),
                outbox := decision.outbox + DeliveryEffects(decision.task, settled, run.delivery.value, now))
    else decision
  }

  /** Why a report is refused, or `None` when it is accepted. */
  function ReportRefusal(now: int, task: Task, run: Run, claimFingerprint: Option<string>,
                         result: RunResult): Option<Outcome> {
    var pending := run.credentialPendingResult;
    var admittedAt := if pending.Some? then pending.value.requestedAt else now;
    if claimFingerprint.Some? && !IsClaimant(run, claimFingerprint.value) then Some(Refuse(NotClaimant))
    else if run.state.Finished? then Some(Refused(RunNotLive, Some(run)))
    else if !IsLive(run.state) then
      Some(Refused(RunNotLive, if claimFingerprint.None? then None else Some(run)))
    else if task.activeRunId != Some(run.runId) then Some(Refuse(StaleLease))
    else if pending.Some?
            && (run.queue.None? || run.queue.value.tokenHash != Some(pending.value.claimFingerprint)
                || !SameReport(pending.value.result, result)) then Some(Refuse(CredentialOperationPending))
    else if StartDeadlineElapsed(run, admittedAt) then Some(Refuse(StaleLease))
    else if claimFingerprint.Some? && RecoveryDeadlineElapsed(run, admittedAt) then Some(Refuse(StaleLease))
    else None
  }

  function DeferredReport(now: int, run: Run, result: RunResult): Run
    requires run.credentialOperation.Some?
  {
    run.(credentialPendingResult :=
           if run.credentialPendingResult.Some? then run.credentialPendingResult
           else Some(PendingResult(run.credentialOperation.value.claimFingerprint, now, result)),
         updatedAt := now)
  }

  /** A settled report and the successor its source revision admits. */
  function SettledReport(now: int, task: Task, run: Run, result: RunResult): Decision {
    var settlement := ReportSettlement(now, task, run, result);
    if result.ok && run.delivery.Some? then settlement else AdvanceSourceRevision(settlement, now)
  }

  /** Refused, recorded behind the open operation, or settled with what its revision is due. */
  function ReportResult(now: int, task: Task, run: Run, claimFingerprint: Option<string>, result: RunResult): Outcome {
    var refusal := ReportRefusal(now, task, run, claimFingerprint, result);
    if refusal.Some? then refusal.value
    else if run.credentialOperation.Some? then
      Decided(Decision(task, Some(DeferredReport(now, run, result)), None, []))
    else Decided(SettledReport(now, task, run, result))
  }

  /** The canceled run, the task without it and with its losses forgotten, and the outcome
      entry; a native cancel also closes a task whose delivery waits. */
  function CancelRun(now: int, task: Task, run: Run, note: Option<Note>, nativeTask: Option<string>): Outcome {
    if !IsLive(run.state) then Refuse(RunNotLive)
    else if run.credentialOperation.Some? then Refuse(CredentialOperationPending)
    else if nativeTask.Some? && !task.task.Work? then Refuse(NotNative)
    else if nativeTask.Some? && (task.task.workId != nativeTask.value || task.activeRunId != Some(run.runId)) then
      Refuse(TaskBusy)
    else
      var settled := run.(state := Canceled, events := AddEvent(run, now, Canceled, ByOperator, note),
                          updatedAt := now);
      var released := ResetLossBudgets(ReleaseLock(task, run.runId, now));
      Decided(Settle(if nativeTask.Some? && DeliveryWaiting(task) then released.(closedAt := Some(now)) else released,
                     settled, now))
  }

  // ------------------------------------------------------------------- loss and retry

  /** Whether an exit may mark the queue record retired: for every pipeline but Codex. */
  predicate RetiresOnExit(run: Run) {
    !run.pipeline.Codex?
  }

  function LossNote(run: Run, now: int, actor: Actor): Option<Note> {
    if actor.ByExpiry? && StartDeadlineElapsed(run, now) then
      Some(if run.queue.value.startupPlacement.Some? && !run.queue.value.startupPlacement.value.placed
           then PlacementDeadlineExceeded else HeartbeatDeadlineExceeded)
    else None
  }

  function SettleLost(now: int, task: Task, run: Run, actor: Actor): Decision {
    var settled := run.(
      queue := if actor.ByExecutor? && run.queue.Some? && RetiresOnExit(run) && !UsesCodexCredentials(run)
               then Some(run.queue.value.(state := Retired)) else run.queue,
      state := Lost,
      events := AddEvent(run, now, Lost, actor, LossNote(run, now, actor)),
      updatedAt := now);
    Settle(ReleaseLock(task, run.runId, now).(consecutiveLost := task.consecutiveLost + 1), settled, now)
  }

  function ExpireLease(now: int, task: Task, run: Run): Outcome {
    if !IsLive(run.state) then Refuse(RunNotLive)
    else if !RecoveryDeadlineElapsed(run, now) then Refuse(StaleLease)
    else if task.activeRunId != Some(run.runId) then Refuse(StaleLease)
    else if run.credentialOperation.Some? then Refuse(CredentialOperationPending)
    else Decided(SettleLost(now, task, run, ByExpiry))
  }

  /** Subject and runner match the claim, and the token too while the run is live; a retired
      claim counts once the run is settled. */
  predicate ExitAuthorized(run: Run, claimant: Claimant) {
    && run.queue.Some?
    && (run.queue.value.state.Claimed? || (run.queue.value.state.Retired? && !IsLive(run.state)))
    && run.queue.value.claimedBySubject == Some(claimant.subject)
    && run.queue.value.claimedBy == Some(claimant.runner)
    && (claimant.claimFingerprint.Some? ==> run.queue.value.tokenHash == claimant.claimFingerprint)
    && (IsLive(run.state) ==> claimant.claimFingerprint.Some?)
  }

  function ExecutorExited(now: int, task: Task, run: Run, claimant: Claimant): Outcome {
    if !ExitAuthorized(run, claimant) then Refuse(NotClaimant)
    else if !IsLive(run.state) then Refuse(RunNotLive)
    else if task.activeRunId != Some(run.runId) then Refuse(StaleLease)
    else if run.credentialOperation.Some? then Refuse(CredentialOperationPending)
    else Decided(SettleLost(now, task, run, ByExecutor))
  }

  /** May a lost run that advanced no revision be retried? */
  predicate RetriesLoss(task: Task, run: Run) {
    && task.consecutiveLost <= MAX_AUTO_RETRIES
    && !(run.sourceRevision.Some? && (task.desiredRevision.None? || Attempt(run) > MAX_AUTO_RETRIES))
  }

  function LossRetryInput(run: Run, now: int): MintInput {
    MintInput(now, RetryOf(run.runId), AutoRetry, run.pipeline, run.priority, run.params, run.issue,
              if run.providerFallback.Some? then Some(Carried(run.providerFallback.value)) else None,
              run.sourceRevision,
              if run.sourceRevision.None? then None else Some(Attempt(run) + 1))
  }

  /** The loss joined by the run's next attempt: of its revision, or under the loss budget; a
      Goose loss stands alone. */
  function RetryAfterLoss(lost: Decision, now: int): Decision
    requires lost.run.Some?
  {
    var run := lost.run.value;
    if run.pipeline.Goose? then lost
    else if AdvancesRevision(lost.task, run) then AdvanceSourceRevision(lost, now)
    else if !RetriesLoss(lost.task, run) then lost
    else Followed(lost, MintRun(lost.task, LossRetryInput(run, now)))
  }

  function SettleLostAndRetry(now: int, loss: Outcome): Outcome
    requires loss.Decided? ==> loss.decision.run.Some?
  {
    if loss.Decided? then Decided(RetryAfterLoss(loss.decision, now)) else loss
  }

  function ExpireLeaseAndRetry(now: int, task: Task, run: Run): Outcome {
    SettleLostAndRetry(now, ExpireLease(now, task, run))
  }

  /** The settled run with its queue record retired, or, while an operation is open, with one
      event that remembers the exit. */
  function RetireSettledClaim(now: int, task: Task, run: Run): Outcome {
    if run.queue.None? || !RetiresOnExit(run) then Refuse(RunNotLive)
    else if run.credentialOperation.Some? then
      if !UsesCodexCredentials(run) then Refuse(RunNotLive)
      else
        var observed := run.events != [] && var last := run.events[|run.events| - 1];
                        last.note == Some(ExitPendingCredentialCleanup) && last.actor.ByExecutor?;
        Decided(Decision(task,
          Some(if observed then run
               else run.(events := AddEvent(run, now, run.state, ByExecutor, Some(ExitPendingCredentialCleanup)))),
          None, []))
    else
      Decided(Decision(task, Some(run.(queue := Some(run.queue.value.(state := Retired)))), None, []))
  }

  function ExecutorExitedAndRetry(now: int, task: Task, run: Run, claimant: Claimant): Outcome {
    var loss := ExecutorExited(now, task, run, claimant);
    if loss.Refused? && loss.reason.RunNotLive? && IsClaimed(run) then RetireSettledClaim(now, task, run)
    else SettleLostAndRetry(now, loss)
  }

  // ------------------------------------------------------------ task-only transitions

  function CloseTask(now: int, task: Option<Task>, activeRun: Option<Run>): Outcome {
    if task.None? then Refuse(UnknownTask)
    else if !task.value.task.Work? then Refuse(NotNative)
    else if task.value.closedAt.Some? then Refuse(TaskClosed)
    else if activeRun.Some? && IsLive(activeRun.value.state) then Refused(TaskBusy, activeRun)
    else TaskOnly(task.value.(closedAt := Some(now), updatedAt := now))
  }

  function UpdateTaskWork(now: int, task: Option<Task>, activeRun: Option<Run>, work: string): Outcome {
    if task.None? then Refuse(UnknownTask)
    else if !task.value.task.Work? then Refuse(NotNative)
    else if activeRun.Some? && IsLive(activeRun.value.state) then Refused(TaskBusy, activeRun)
    else TaskOnly(task.value.(work := work, updatedAt := now))
  }

  function RefreshIssue(now: int, task: Option<Task>, issue: Issue): Outcome {
    if task.None? then Refuse(UnknownTask)
    else if task.value.issue.Some? && task.value.issue.value.source != issue.source then Threw
    else if task.value.issue.Some? && task.value.issue.value.updatedAt >= issue.updatedAt then TaskOnly(task.value)
    else TaskOnly(task.value.(issue := Some(issue), updatedAt := now))
  }
}
