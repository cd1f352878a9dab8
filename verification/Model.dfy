/** Records of the orchestrator: tasks, runs, deliveries, credential operations
    and outbox entries, with the predicates `model.ts` defines on them.

    Time is a number of milliseconds. Identifiers that the program builds by
    concatenation (`<task key>/r<n>`, `retry:<run id>`, `outcome/<run id>`) are
    structured values here; module `Keys` proves that the strings are injective. */
module Model {

  datatype Option<+T> = None | Some(value: T)

  datatype TaskId = Github(repo: string, issue: nat) | Work(workId: string)

  datatype RunId = RunId(task: TaskId, n: nat)

  datatype RunState = Pending | Running | Finished | Canceled | Lost

  predicate IsLive(state: RunState) {
    state.Pending? || state.Running?
  }

  /** Only Codex and Goose are told apart by a decision; any other is just a name. */
  datatype Pipeline = Codex | Goose | OtherPipeline(name: string)

  datatype Priority = Urgent | Normal | Background

  datatype RequestSource = Caller | AutoRetry | ProviderFallback | DeliveryCorrection

  /** `Raw` is caller text; the others are the orchestrator's own dependent ids. */
  datatype RequestId =
    | Raw(text: string)
    | RetryOf(run: RunId)
    | FallbackOf(run: RunId)
    | CorrectionOf(run: RunId)

  datatype RequestKey = RequestKey(task: TaskId, source: RequestSource, id: RequestId)

  datatype Summary = Park | ProviderLimit | ProviderCapacity | Superseded | Said(text: string)

  datatype RunResult = RunResult(
    ok: bool,
    summary: Option<Summary>,
    ref: Option<string>,
    relatedRefs: Option<seq<string>>,
    message: Option<string>,
    humanNeededActions: Option<string>)

  datatype Mode = Reply | Implement | OtherMode(text: string)

  /** What a run is asked with: a field for each key some decision looks at, a map for the rest. */
  datatype Params = Params(
    mode: Option<Mode>,
    replyPrincipal: Option<string>,
    deliveryPredecessor: Option<RunId>,
    context: Option<string>,
    providerAuth: Option<Pipeline>,
    resumeSessionId: Option<string>,
    resumeTranscriptGcsUri: Option<string>,
    other: map<string, string>)

  /** Tracker facts: the source identity, its clock, and opaque content. */
  datatype Issue = Issue(source: string, linear: bool, closed: bool, updatedAt: int, content: string)

  datatype WorkRevision = WorkRevision(key: string, input: string, observedAt: Option<map<string, int>>)

  datatype QueueState = Queued | Claimed | Retired

  datatype StartupPlacement = StartupPlacement(placed: bool, observedAt: int, jobUid: Option<string>)

  datatype RunQueue = RunQueue(
    state: QueueState,
    placementObservedAt: Option<int>,
    deferredUntil: Option<int>,
    claimedAt: Option<int>,
    startDeadlineAt: Option<int>,
    startupPlacement: Option<StartupPlacement>,
    firstHeartbeatAt: Option<int>,
    providerProcessStartedAt: Option<int>,
    claimedBy: Option<string>,
    claimedBySubject: Option<string>,
    tokenHash: Option<string>)

  datatype Actor =
    | ByRequest | ByDispatch | ByReport | ByOperator | ByExpiry | ByExecutor | ByProviderFallback

  datatype Note =
    | FreeNote(text: string)
    | SupersededByRevision
    | SourceIneligible
    | QueuedSwitch(pipeline: Pipeline)
    | LabelHandoff(pipeline: Pipeline)
    | CooldownReroute(failure: RunId, pipeline: Pipeline)
    | PlacementDeadlineExceeded
    | HeartbeatDeadlineExceeded
    | ExitPendingCredentialCleanup

  datatype RunEvent = RunEvent(at: int, to: RunState, actor: Actor, note: Option<Note>)

  datatype MutationId = MutationId(operation: string, index: nat)

  datatype CredentialMutation = CredentialMutation(id: MutationId, payload: string)

  datatype OperationKind = Restore | Renew | Persist | Cleanup

  datatype CredentialOperation = CredentialOperation(
    id: string,
    kind: OperationKind,
    claimFingerprint: string,
    startedAt: int,
    mutationSequence: nat,
    recoverAfter: int,
    mutation: Option<CredentialMutation>)

  datatype PendingResult = PendingResult(claimFingerprint: string, requestedAt: int, result: RunResult)

  datatype FallbackReason = LimitReported | CoolingDown

  datatype FallbackTrigger = FallbackTrigger(reason: FallbackReason, failureRunId: RunId, limitedPipeline: Pipeline)

  datatype FallbackPolicy = FallbackPolicy(
    principal: string,
    sourceRepository: Option<string>,
    allowedPipelines: seq<Pipeline>,
    attemptedPipelines: seq<Pipeline>,
    originalRunId: RunId,
    fromRunId: Option<RunId>,
    trigger: Option<FallbackTrigger>)

  /** What a request may carry: a fresh authorization, or an earlier run's policy. */
  datatype FallbackInput =
    | Authorized(principal: string, sourceRepository: Option<string>, pipelines: seq<Pipeline>)
    | Carried(policy: FallbackPolicy)

  datatype DeliveryState = Waiting | Complete

  datatype DeliveryBinding = DeliveryBinding(
    runId: RunId,
    repo: string,
    number: nat,
    head: string,
    state: DeliveryState,
    correctionRunId: Option<RunId>,
    observedAt: int,
    mergeCommit: Option<string>)

  datatype TriageState = TriagePending | TriageComplete | TriageSuperseded | TriageFailed

  datatype Run = Run(
    runId: RunId,
    state: RunState,
    pipeline: Pipeline,
    priority: Priority,
    requestId: RequestId,
    requestSource: RequestSource,
    params: Params,
    issue: Option<Issue>,
    sourceRevision: Option<WorkRevision>,
    revisionAttempt: Option<nat>,
    providerFallback: Option<FallbackPolicy>,
    queue: Option<RunQueue>,
    delivery: Option<DeliveryBinding>,
    triagePublication: Option<TriageState>,
    credentialOperation: Option<CredentialOperation>,
    credentialRestoredClaimFingerprint: Option<string>,
    credentialPendingResult: Option<PendingResult>,
    credentialWriteReceipt: Option<string>,
    leaseExpiresAt: int,
    result: Option<RunResult>,
    events: seq<RunEvent>,
    createdAt: int,
    updatedAt: int)

  datatype AcceptedGeneration = AcceptedGeneration(runId: RunId, requestedAt: int, pipeline: Pipeline)

  datatype ProviderRouting = ProviderRouting(
    requestId: RequestId,
    requestedAt: int,
    actor: string,
    requestedPipeline: Pipeline,
    effectivePipeline: Pipeline,
    accepted: bool,
    acceptedGeneration: Option<AcceptedGeneration>,
    fromRunId: Option<RunId>)

  datatype Task = Task(
    task: TaskId,
    delivery: Option<DeliveryBinding>,
    activeRunId: Option<RunId>,
    runCount: nat,
    consecutiveLost: nat,
    work: string,
    issue: Option<Issue>,
    desiredRevision: Option<WorkRevision>,
    sourceObservedAt: Option<map<string, int>>,
    providerRouting: Option<ProviderRouting>,
    closedAt: Option<int>,
    updatedAt: int)

  /** The durable effects of a run: the prefix of the outbox entry id. */
  datatype Effect =
    | DispatchRun | ReportOutcome | PublishTriage | HandoffSummary
    | MonitorDelivery | DeliveryOutcome | IssueStart

  datatype EntryId = EntryId(effect: Effect, run: RunId)

  datatype OutboxState = EntryPending | Leased(claimId: string, leaseExpiresAt: int) | Done | Failed

  datatype OutboxEntry = OutboxEntry(
    entryId: EntryId,
    state: OutboxState,
    attempts: nat,
    firstFailedAt: Option<int>,
    nextAttemptAt: Option<int>,
    deliveryFailures: Option<nat>,
    createdAt: int,
    updatedAt: int)

  function NewEntry(effect: Effect, run: RunId, now: int): OutboxEntry {
    OutboxEntry(EntryId(effect, run), EntryPending, 0, None, None, None, now, now)
  }

  // ---------------------------------------------------------------- predicates

  predicate IsClaimed(run: Run) {
    run.queue.Some? && run.queue.value.state.Claimed?
  }

  predicate IsQueued(run: Run) {
    run.queue.Some? && run.queue.value.state.Queued?
  }

  function KeyOf(run: Run): RequestKey {
    RequestKey(run.runId.task, run.requestSource, run.requestId)
  }

  predicate DeliveryWaiting(task: Task) {
    task.delivery.Some? && task.delivery.value.state.Waiting?
  }

  /** The instant from which the run may be declared lost: the earlier of start deadline and
      lease until a first heartbeat, then the lease; none in the queue. */
  function RecoveryDeadline(run: Run): Option<int> {
    if IsQueued(run) then None
    else if IsClaimed(run) && run.queue.value.firstHeartbeatAt.None?
            && run.queue.value.startDeadlineAt.Some?
            && run.queue.value.startDeadlineAt.value < run.leaseExpiresAt
    then run.queue.value.startDeadlineAt
    else Some(run.leaseExpiresAt)
  }

  predicate StartDeadlineElapsed(run: Run, now: int) {
    && IsClaimed(run)
    && run.queue.value.firstHeartbeatAt.None?
    && run.queue.value.startDeadlineAt.Some?
    && run.queue.value.startDeadlineAt.value <= now
  }

  predicate RecoveryDeadlineElapsed(run: Run, now: int) {
    RecoveryDeadline(run).Some? && RecoveryDeadline(run).value <= now
  }

  predicate IsClaimant(run: Run, claimFingerprint: string) {
    IsClaimed(run) && run.queue.value.tokenHash == Some(claimFingerprint)
  }

  predicate UsesCodexCredentials(run: Run) {
    run.pipeline.Codex? || (run.pipeline.Goose? && run.params.providerAuth == Some(Codex))
  }

  /** What a claim may select: a live queued run past its deferral, with no operation open. */
  predicate IsQueueAdmissionCandidate(run: Run, now: int) {
    && IsLive(run.state)
    && run.credentialOperation.None?
    && IsQueued(run)
    && (run.queue.value.deferredUntil.Some? ==> run.queue.value.deferredUntil.value <= now)
  }

  /** The run finished without success on a limit or a capacity stop. */
  predicate OpensProviderCooldown(run: Run) {
    && run.state.Finished?
    && run.result.Some?
    && !run.result.value.ok
    && (run.result.value.summary == Some(ProviderLimit) || run.result.value.summary == Some(ProviderCapacity))
  }

  predicate Blank(text: string) {
    forall i | 0 <= i < |text| :: text[i] in {' ', '\t', '\n', '\r'}
  }
}
