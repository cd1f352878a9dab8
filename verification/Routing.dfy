/** Label handoff between providers, from `provider-routing.ts`. */
module Routing {
  import opened Model
  import opened Decide

  /** Claimed, and either live or with an operation open. */
  predicate RetainsPhysicalClaim(run: Run) {
    IsClaimed(run) && (IsLive(run.state) || run.credentialOperation.Some?)
  }

  datatype LabelRequest = LabelRequest(requestedAt: int, actor: string, allowProviderChange: bool)

  /** What the request transaction read for a label: the newest run, and the
      physical owners unless their inventory was truncated. */
  datatype RoutingEvidence = RoutingEvidence(latestRun: Option<Run>, retainedClaims: Option<set<RunId>>)

  function RoutingRecord(a: RequestArgs, task: Option<Task>, admitted: Pipeline, intent: LabelRequest,
                         latestRun: Option<Run>): ProviderRouting {
    ProviderRouting(a.requestId, intent.requestedAt, intent.actor, a.pipeline, admitted, false,
                    if task.Some? && task.value.providerRouting.Some?
                    then task.value.providerRouting.value.acceptedGeneration else None,
                    if latestRun.Some? then Some(latestRun.value.runId) else None)
  }

  function RejectLabel(task: Option<Task>, record: ProviderRouting, now: int): Outcome {
    if task.None? then Refuse(WorkSpecMismatch)
    else TaskOnly(task.value.(providerRouting := Some(record), updatedAt := now))
  }

  function LabelPriority(activeRun: Option<Run>, latestRun: Option<Run>, given: Option<Priority>): Option<Priority> {
    if activeRun.Some? then Some(activeRun.value.priority)
    else if latestRun.Some? then Some(latestRun.value.priority) else given
  }

  /** Does the stored clock already cover this label? */
  predicate LabelIsStale(task: Option<Task>, intent: LabelRequest) {
    task.Some? && task.value.providerRouting.Some? && intent.requestedAt <= task.value.providerRouting.value.requestedAt
  }

  /** Every ground on which a fresh label is recorded as refused before a run is tried. */
  predicate LabelBlocked(a: RequestArgs, task: Option<Task>, activeRun: Option<Run>, admitted: Pipeline,
                         intent: LabelRequest, evidence: RoutingEvidence) {
    var latest := evidence.latestRun;
    var generation := if task.Some? && task.value.providerRouting.Some?
                      then task.value.providerRouting.value.acceptedGeneration else None;
    || (latest.Some? && !(generation.Some? && generation.value.runId == latest.value.runId)
        && intent.requestedAt <= latest.value.createdAt)
    || (task.Some? && a.pipeline != admitted && !intent.allowProviderChange)
    || (task.Some? && latest.None?)
    || (task.Some? && task.value.closedAt.Some?)
    || (task.Some? && evidence.retainedClaims.None?)
    || (evidence.retainedClaims.Some? && evidence.retainedClaims.value != {})
    || (activeRun.Some? && activeRun.value.credentialOperation.Some?)
    || (latest.Some? && latest.value.credentialOperation.Some?)
  }

  /** Cancel the queued owner and mint the labelled successor, or mint directly. */
  function LabelAttempt(a: RequestArgs, task: Option<Task>, activeRun: Option<Run>, admitted: Pipeline): Outcome {
    if task.Some? && activeRun.Some? && IsLive(activeRun.value.state) && a.pipeline != admitted then
      if !IsQueued(activeRun.value) then Refuse(TaskBusy)
      else
        var canceled := CancelRun(a.now, task.value, activeRun.value, Some(LabelHandoff(a.pipeline)), None);
        if !canceled.Decided? then canceled
        else
          var successor := RequestRun(a, Some(canceled.decision.task), None);
          if !successor.Decided? then successor
          // The canceled run's outcome entry is left out of the joint commit.
          else Decided(Joined(canceled.decision.(outbox := []), successor.decision))
    else RequestRun(a, task, activeRun)
  }

  function AcceptLabel(decision: Decision, record: ProviderRouting, intent: LabelRequest): Decision
    requires decision.run.Some?
  {
    var run := decision.run.value;
    decision.(task := decision.task.(providerRouting := Some(record.(
      effectivePipeline := run.pipeline,
      accepted := true,
      acceptedGeneration := Some(AcceptedGeneration(run.runId, intent.requestedAt, run.pipeline))))))
  }

  function DecideLabelProviderRequest(given: RequestArgs, task: Option<Task>, activeRun: Option<Run>,
                                      admitted: Pipeline, intent: LabelRequest, evidence: RoutingEvidence): Outcome {
    var record := RoutingRecord(given, task, admitted, intent, evidence.latestRun);
    if given.taskId.Work? then Refuse(NotNative)
    else if task.Some? && task.value.providerRouting.Some?
            && task.value.providerRouting.value.requestId == given.requestId then TaskOnly(task.value)
    else if LabelIsStale(task, intent) then Refused(StaleProviderRequest, evidence.latestRun)
    else if LabelBlocked(given, task, activeRun, admitted, intent, evidence) then RejectLabel(task, record, given.now)
    else
      var a := given.(priority := LabelPriority(activeRun, evidence.latestRun, given.priority));
      var attempt := LabelAttempt(a, task, activeRun, admitted);
      match attempt
      case Threw => Threw
      case Refused(_, _) => RejectLabel(task, record, given.now)
      case Decided(decision) =>
        if decision.run.None? then Threw else Decided(AcceptLabel(decision, record, intent))
  }
}
