/** The transactions of `orchestrator.ts`: which decision each operation makes
    from the snapshot its store transaction read. */
module Orchestrator {
  import opened Model
  import opened Decide
  import opened Credential
  import opened Fallback
  import opened Routing
  import opened Delivery

  /** The pipelines the requester may use, and those that have room, as the transaction saw them. */
  datatype Authority = Authority(authorized: seq<Pipeline>, available: seq<Pipeline>)

  datatype RunCommand =
    | DispatchConfirmed
    | StartupObserved(claimant: Claimant, jobUid: string, observedAt: int, placed: bool)
    | PlacementObserved(claimant: Claimant, placedAt: int)
    | Renewed(renewFingerprint: Option<string>, providerStarted: bool)
    | Reported(result: RunResult, reportFingerprint: Option<string>, delivery: Option<DeliveryBinding>,
               publishTriage: bool, reportAuthority: Option<Authority>)
    | CancelRequested(note: Option<string>, nativeTask: Option<string>)
    | CancelUnclaimedBefore(notAfter: int, cutoffNote: Option<string>, closedIssue: Option<Issue>)
    | LeaseExpired
    | WorkerExited(exitClaimant: Claimant)
    | SourceInvalidated(observed: map<string, int>)
    | OperationReserved(reserveFingerprint: string, reserveId: string, kind: OperationKind)
    | OperationChanged(changeId: string, changeFingerprint: string, change: Change)
    | OperationFinished(finishId: string, finishFingerprint: string, restored: bool,
                        leaseRetiredAtSequence: Option<nat>, finishAuthority: Option<Authority>)
    | QueuedRerouted(cooldown: Option<Cooldown>, rerouteAuthority: Authority)
    | DeliveryObserved(observation: Observation, correctionAuthorized: bool)

  function FreeText(note: Option<string>): Option<Note> {
    if note.Some? then Some(FreeNote(note.value)) else None
  }

  /** The run as the report reads it, with the delivery and triage it brings. */
  function ReportingRun(run: Run, cmd: RunCommand): Run
    requires cmd.Reported?
  {
    run.(delivery := if cmd.delivery.Some? then cmd.delivery else run.delivery,
         triagePublication := if cmd.publishTriage && cmd.result.ok then Some(TriagePending) else run.triagePublication)
  }

  function DecideReport(now: int, task: Task, run: Run, cmd: RunCommand): Outcome
    requires cmd.Reported?
  {
    if cmd.reportAuthority.Some? && !cmd.result.ok then
      ReportResultWithFallback(now, task, run, cmd.reportFingerprint, cmd.result,
                               cmd.reportAuthority.value.authorized, cmd.reportAuthority.value.available)
    else if cmd.delivery.Some?
            && (cmd.delivery.value.runId != run.runId || !cmd.result.ok
                || (run.delivery.Some? && run.delivery.value.head != cmd.delivery.value.head)) then Refuse(StaleLease)
    else ReportResult(now, task, ReportingRun(run, cmd), cmd.reportFingerprint, cmd.result)
  }

  /** The finished operation's decision, with the fallback of the report it released. */
  function DecideFinish(now: int, task: Task, run: Run, cmd: RunCommand): Outcome
    requires cmd.OperationFinished?
  {
    var outcome := ChangeCredentialOperation(now, task, run, cmd.finishId, cmd.finishFingerprint,
                                             Finish(cmd.restored, cmd.leaseRetiredAtSequence));
    if !outcome.Decided? || cmd.finishAuthority.None? || run.credentialPendingResult.None?
       || outcome.decision.run.None? then outcome
    else SettleProviderFallback(now, outcome.decision, cmd.finishAuthority.value.authorized,
                                cmd.finishAuthority.value.available)
  }

  function DecideCancelUnclaimed(now: int, task: Task, run: Run, cmd: RunCommand): Outcome
    requires cmd.CancelUnclaimedBefore?
  {
    if cmd.closedIssue.Some?
       && (task.issue.None? || !task.issue.value.closed || task.issue.value.updatedAt != cmd.closedIssue.value.updatedAt
           || task.issue.value.source != cmd.closedIssue.value.source) then Refuse(StaleIssueSource)
    else if IsClaimed(run) then Refuse(RunAlreadyClaimed)
    else if run.createdAt > cmd.notAfter then Refuse(RunNewerThanCutoff)
    else CancelRun(now, task, run, FreeText(cmd.cutoffNote), None)
  }

  function DecideCommand(now: int, task: Task, run: Run, cmd: RunCommand): Outcome {
    match cmd
    case DispatchConfirmed => ConfirmDispatch(now, task, run)
    case StartupObserved(claimant, jobUid, observedAt, placed) =>
      ObserveStartupPlacement(now, task, run, claimant, jobUid, observedAt, placed)
    case PlacementObserved(claimant, observedAt) => ObservePlacement(now, task, run, claimant, observedAt)
    case Renewed(fingerprint, started) => RenewLease(now, task, run, fingerprint, started)
    case Reported(_, _, _, _, _) => DecideReport(now, task, run, cmd)
    case CancelRequested(note, nativeTask) => CancelRun(now, task, run, FreeText(note), nativeTask)
    case CancelUnclaimedBefore(_, _, _) => DecideCancelUnclaimed(now, task, run, cmd)
    case LeaseExpired => ExpireLeaseAndRetry(now, task, run)
    case WorkerExited(claimant) => ExecutorExitedAndRetry(now, task, run, claimant)
    case SourceInvalidated(observed) => InvalidateSourceRevision(now, task, run, observed)
    case OperationReserved(fingerprint, id, kind) => ReserveCredentialOperation(now, task, run, fingerprint, id, kind)
    case OperationChanged(id, fingerprint, change) =>
      ChangeCredentialOperation(now, task, run, id, fingerprint, change)
    case OperationFinished(_, _, _, _, _) => DecideFinish(now, task, run, cmd)
    case QueuedRerouted(cooldown, authority) =>
      RerouteQueuedRun(now, task, run, cooldown, authority.authorized, authority.available)
    case DeliveryObserved(observation, authorized) => AdvanceDelivery(now, task, run, observation, authorized)
  }

  /** Every command but the credential ones, the reroute and the cutoff cancellation. */
  predicate ReservesCleanup(cmd: RunCommand) {
    !cmd.OperationReserved? && !cmd.OperationChanged? && !cmd.OperationFinished?
    && !cmd.QueuedRerouted? && !cmd.CancelUnclaimedBefore?
  }

  /** Does this commit settle a claimed Codex run that holds no operation? */
  predicate LeavesCodexDebt(run: Run, decision: Decision) {
    && IsLive(run.state)
    && decision.run.Some? && !IsLive(decision.run.value.state)
    && UsesCodexCredentials(run)
    && IsClaimed(run) && run.queue.value.tokenHash.Some?
    && decision.run.value.credentialOperation.None?
  }

  /** The outcome, with a cleanup operation on the settled run if its claim is left without one. */
  function WithCleanup(run: Run, outcome: Outcome, cleanupId: string): Outcome {
    if !outcome.Decided? || !LeavesCodexDebt(run, outcome.decision) then outcome
    else
      var settled := outcome.decision.run.value;
      var cleanup := ReserveCredentialOperation(settled.updatedAt, outcome.decision.task, settled,
                                                run.queue.value.tokenHash.value, cleanupId, Cleanup);
      if !cleanup.Decided? then cleanup else Decided(outcome.decision.(run := cleanup.decision.run))
  }

  function DecideOnRun(now: int, task: Task, run: Run, cmd: RunCommand, cleanupId: string): Outcome {
    var outcome := DecideCommand(now, task, run, cmd);
    if ReservesCleanup(cmd) then WithCleanup(run, outcome, cleanupId) else outcome
  }

  // ------------------------------------------------------------------ admission

  datatype RequestBinding = RequestBinding(bindingKey: string, canonicalRequestId: string)

  datatype RequestInput = RequestInput(
    taskId: TaskId,
    requestId: string,
    pipeline: Pipeline,
    priority: Option<Priority>,
    params: Params,
    work: Option<string>,
    issue: Option<Issue>,
    sourceRevision: Option<WorkRevision>,
    providerFallback: Option<FallbackInput>,
    fallbackForPipeline: Option<Pipeline -> Option<FallbackInput>>,
    requestBinding: Option<RequestBinding>,
    replaceQueuedRunId: Option<RunId>,
    labelIntent: Option<LabelRequest>,
    pipelineForStoredTask: Option<Task -> Pipeline>,
    useEffectivePipeline: bool,
    expectedEffectivePipeline: Option<Pipeline>,
    isPipelineAuthorized: Option<Pipeline -> bool>,
    isStoredWorkCompatible: Option<Task -> bool>)

  /** Everything a request decision reads. */
  datatype RequestState = RequestState(
    task: Option<Task>,
    activeRun: Option<Run>,
    previousRun: Option<Run>,
    previousSourceRevision: Option<WorkRevision>,
    requestId: string,
    evidence: RoutingEvidence)

  function AdmittedPipeline(input: RequestInput, task: Option<Task>): Pipeline {
    if task.Some? && task.value.providerRouting.Some? && task.value.providerRouting.value.acceptedGeneration.Some? then
      task.value.providerRouting.value.acceptedGeneration.value.pipeline
    else if task.Some? && input.pipelineForStoredTask.Some? then input.pipelineForStoredTask.value(task.value)
    else input.pipeline
  }

  function EffectivePipeline(input: RequestInput, task: Option<Task>): Pipeline {
    if input.useEffectivePipeline then AdmittedPipeline(input, task) else input.pipeline
  }

  function ChosenFallback(input: RequestInput, pipeline: Pipeline): Option<FallbackInput> {
    if input.fallbackForPipeline.None? then input.providerFallback else input.fallbackForPipeline.value(pipeline)
  }

  function ArgsOf(now: int, input: RequestInput, state: RequestState): RequestArgs {
    var pipeline := EffectivePipeline(input, state.task);
    RequestArgs(now, input.taskId, Raw(state.requestId), Caller, pipeline,
                if input.priority.Some? then input.priority
                else if input.replaceQueuedRunId.Some? && state.activeRun.Some? then
                  Some(state.activeRun.value.priority)
                else None,
                input.params, input.work,
                if input.issue.Some? then IssueGiven(input.issue) else IssueOmitted,
                ChosenFallback(input, pipeline), None)
  }

  /** Cancels the named queued run of another pipeline and mints the request in its place. */
  function ReplaceQueuedRun(a: RequestArgs, input: RequestInput, task: Option<Task>, activeRun: Option<Run>): Outcome
    requires input.replaceQueuedRunId.Some?
  {
    if task.None? || activeRun.None? || activeRun.value.runId != input.replaceQueuedRunId.value then Refuse(StaleLease)
    else if IsClaimed(activeRun.value) then Refuse(RunAlreadyClaimed)
    else if !IsQueued(activeRun.value) || activeRun.value.pipeline == input.pipeline then Refuse(TaskBusy)
    else
      var canceled := CancelRun(a.now, task.value, activeRun.value, Some(QueuedSwitch(input.pipeline)), None);
      if !canceled.Decided? then canceled
      else
        var replacement := RequestRun(a, Some(canceled.decision.task), None);
        if !replacement.Decided? then replacement else Decided(Joined(canceled.decision, replacement.decision))
  }

  function DecideRequest(now: int, input: RequestInput, state: RequestState): Outcome {
    var task := state.task;
    if task.Some? && input.isStoredWorkCompatible.Some? && !input.isStoredWorkCompatible.value(task.value) then
      Refuse(WorkSpecMismatch)
    else if state.previousSourceRevision.Some? then
      if state.previousSourceRevision != input.sourceRevision then Refuse(WorkSpecMismatch)
      else Refused(DuplicateRequest, state.previousRun)
    else
      var pipeline := EffectivePipeline(input, task);
      if input.expectedEffectivePipeline.Some? && input.expectedEffectivePipeline.value != pipeline then
        Refuse(WorkSpecMismatch)
      else if input.isPipelineAuthorized.Some?
              && !input.isPipelineAuthorized.value(
                   if state.previousRun.Some? then state.previousRun.value.pipeline else pipeline) then
        Refuse(PipelineForbidden)
      else if state.previousRun.Some? then Refused(DuplicateRequest, state.previousRun)
      else
        var a := ArgsOf(now, input, state);
        if input.labelIntent.Some? then
          DecideLabelProviderRequest(a, task, state.activeRun, AdmittedPipeline(input, task),
                                     input.labelIntent.value, state.evidence)
        else if input.replaceQueuedRunId.Some? then ReplaceQueuedRun(a, input, task, state.activeRun)
        else if input.sourceRevision.None? then RequestRun(a, task, state.activeRun)
        else RequestRevisionRun(a.(sourceRevision := input.sourceRevision), task, state.activeRun)
  }
}
