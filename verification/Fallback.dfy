/** Provider fallback and reroute, from `provider-fallback.ts`. */
module Fallback {
  import opened Model
  import opened Decide

  /** The earliest listed pipeline outside `barred` and inside both other lists. */
  function FirstEligible(allowed: seq<Pipeline>, barred: seq<Pipeline>, authorized: seq<Pipeline>,
                         available: seq<Pipeline>): Option<Pipeline> {
    if allowed == [] then None
    else if allowed[0] !in barred && allowed[0] in authorized && allowed[0] in available then Some(allowed[0])
    else FirstEligible(allowed[1..], barred, authorized, available)
  }

  function SelectFallbackPipeline(run: Run, authorized: seq<Pipeline>, available: seq<Pipeline>): Option<Pipeline> {
    if run.providerFallback.None? then None
    else
      var policy := run.providerFallback.value;
      FirstEligible(policy.allowedPipelines, policy.attemptedPipelines + [run.pipeline], authorized, available)
  }

  /** The parameters without the session and transcript of the previous provider. */
  function FreshParams(params: Params): Params {
    params.(resumeSessionId := None, resumeTranscriptGcsUri := None)
  }

  function SuccessorPolicy(previous: Run, pipeline: Pipeline, reason: FallbackReason, failure: RunId): FallbackPolicy
    requires previous.providerFallback.Some?
  {
    var policy := previous.providerFallback.value;
    policy.(attemptedPipelines := policy.attemptedPipelines + [pipeline],
            fromRunId := Some(previous.runId),
            trigger := Some(FallbackTrigger(reason, failure, previous.pipeline)))
  }

  function SuccessorArgs(now: int, previous: Run, pipeline: Pipeline, reason: FallbackReason,
                         failure: RunId): RequestArgs
    requires previous.providerFallback.Some?
  {
    RequestArgs(now, previous.runId.task, FallbackOf(previous.runId), ProviderFallback, pipeline,
                Some(previous.priority), FreshParams(previous.params), None, IssueGiven(previous.issue),
                Some(Carried(SuccessorPolicy(previous, pipeline, reason, failure))), None)
  }

  function Successor(now: int, settled: Decision, pipeline: Pipeline, reason: FallbackReason, failure: RunId): Outcome
    requires settled.run.Some?
  {
    var previous := settled.run.value;
    if previous.providerFallback.None? then Refuse(WorkSpecMismatch)
    else
      var next := RequestRun(SuccessorArgs(now, previous, pipeline, reason, failure), Some(settled.task), None);
      if !next.Decided? then next else Decided(Followed(settled, next.decision))
  }

  /** An available alternative, else the first authorized one, which then waits. */
  function FallbackChoice(run: Run, authorized: seq<Pipeline>, available: seq<Pipeline>): Option<Pipeline> {
    var preferred := SelectFallbackPipeline(run, authorized, available);
    if preferred.Some? then preferred else SelectFallbackPipeline(run, authorized, authorized)
  }

  function SettleProviderFallback(now: int, settled: Decision, authorized: seq<Pipeline>,
                                  available: seq<Pipeline>): Outcome
    requires settled.run.Some?
  {
    var previous := settled.run.value;
    if !OpensProviderCooldown(previous) then Decided(settled)
    else
      var choice := FallbackChoice(previous, authorized, available);
      if choice.None? then Decided(settled)
      else Successor(now, settled, choice.value, LimitReported, previous.runId)
  }

  /** The report's decision, with the fallback successor added when its settlement calls for one. */
  function ReportResultWithFallback(now: int, task: Task, run: Run, claimFingerprint: Option<string>, result: RunResult,
                                    authorized: seq<Pipeline>, available: seq<Pipeline>): Outcome {
    var settled := ReportResult(now, task, run, claimFingerprint, result);
    if !settled.Decided? then settled
    else SettleProviderFallback(now, settled.decision, authorized, available)
  }

  datatype Cooldown = Cooldown(pipeline: Pipeline, runId: RunId, expiresAt: int)

  function RerouteSettlement(now: int, task: Task, run: Run, failure: RunId, pipeline: Pipeline): Decision {
    Decision(
      task.(activeRunId := None, updatedAt := now),
      Some(run.(state := Canceled, updatedAt := now,
                events := AddEvent(run, now, Canceled, ByProviderFallback, Some(CooldownReroute(failure, pipeline))))),
      None, [])
  }

  /** Cancels the active queued run and mints it on an untried pipeline, if its own pipeline
      is the one cooling down. */
  function RerouteQueuedRun(now: int, task: Task, run: Run, cooldown: Option<Cooldown>,
                            authorized: seq<Pipeline>, available: seq<Pipeline>): Outcome {
    if task.activeRunId != Some(run.runId) then Refuse(StaleLease)
    else if IsClaimed(run) then Refuse(RunAlreadyClaimed)
    else if !IsQueued(run) || !IsLive(run.state)
            || (run.queue.value.deferredUntil.Some? && run.queue.value.deferredUntil.value > now) then
      Refuse(RunNotLive)
    else if cooldown.None? || cooldown.value.expiresAt <= now || cooldown.value.pipeline != run.pipeline then
      Refuse(StaleLease)
    else
      var pipeline := SelectFallbackPipeline(run, authorized, available);
      if pipeline.None? then Refuse(WorkSpecMismatch)
      else Successor(now, RerouteSettlement(now, task, run, cooldown.value.runId, pipeline.value),
                     pipeline.value, CoolingDown, cooldown.value.runId)
  }
}
