/** What a command on a run leaves alone: the routing record, an open credential
    operation it does not own, and the budget of automatic successors. */
module Frames {
  import opened Model
  import opened Decide
  import opened Credential
  import opened Fallback
  import opened Delivery
  import opened Orchestrator
  import opened Invariants
  import opened Primitives
  import opened MintSteps
  import opened CommandPlans
  import opened Outbox

  // ---------------------------------------------------------------------- the budget

  /** Alternatives a run may still fall back to. */
  function Alternatives(policy: Option<FallbackPolicy>): set<Pipeline> {
    if policy.None? then {} else Untried(policy.value)
  }

  /** Each alternative is worth its own run and two retries of a lost one. */
  function Fuel(policy: Option<FallbackPolicy>, lost: nat): nat {
    3 * |Alternatives(policy)| + (if lost < MAX_AUTO_RETRIES then MAX_AUTO_RETRIES - lost else 0)
  }

  /** An automatic successor of a run without source revision uses up fuel. */
  ghost predicate SpendsFuel(t: Task, run: Run, d: Decision) {
    if d.additionalRun.None? then d.task.activeRunId.Some? ==> d.task.consecutiveLost == t.consecutiveLost
    else && t.activeRunId == Some(run.runId)
         && (run.sourceRevision.None? ==>
               && d.additionalRun.value.sourceRevision.None?
               && Fuel(d.additionalRun.value.providerFallback, d.task.consecutiveLost)
                    < Fuel(run.providerFallback, t.consecutiveLost))
  }

  ghost predicate KeepsRouting(t: Task, d: Decision) {
    d.task.providerRouting == t.providerRouting
  }

  ghost predicate KeepsOperation(run: Run, d: Decision) {
    d.run.Some? ==>
      && d.run.value.credentialOperation == run.credentialOperation
      && d.run.value.credentialRestoredClaimFingerprint == run.credentialRestoredClaimFingerprint
      && d.run.value.credentialWriteReceipt == run.credentialWriteReceipt
  }

  // ----------------------------------------------------------------- the audit trail

  /** A run moves from pending through running to one terminal state, and stays there. */
  ghost predicate Advances(before: RunState, after: RunState) {
    match before
    case Pending => !after.Pending?
    case Running => !IsLive(after)
    case _ => after == before
  }

  /** The state changes only with an event that records it. */
  ghost predicate Appends(before: Run, after: Run, now: int) {
    if |after.events| == |before.events| then after.events == before.events && after.state == before.state
    else
      && |after.events| == |before.events| + 1 && before.events == after.events[..|before.events|]
      && var event := after.events[|before.events|];
         && event.at == now && event.to == after.state && Advances(before.state, after.state)
         && (!IsLive(before.state) ==> !HandsOver(event))
  }

  /** A minted run begins its own trail. */
  ghost predicate Opens(run: Run, now: int) {
    run.state.Pending? && run.events == [RunEvent(now, Pending, ByRequest, None)]
  }

  /** Entries as a commit writes them: pending, and handed out to no one. */
  ghost predicate AllFresh(entries: seq<OutboxEntry>) {
    forall i | 0 <= i < |entries| :: FreshEntry(entries[i])
  }

  /** An outcome is published only for a run whose last event hands it to no successor. */
  ghost predicate OutcomeMatches(before: Run, after: Run, entries: seq<OutboxEntry>) {
    Emits(entries, EntryId(ReportOutcome, before.runId)) ==>
      IsLive(before.state) && !IsLive(after.state)
      && |before.events| < |after.events| && !HandsOver(after.events[|after.events| - 1])
  }

  /** A successor begins with no policy, repeats its predecessor's, or extends it. */
  ghost predicate Descends(policy: Option<FallbackPolicy>, run: Run, next: Run) {
    || next.providerFallback.None?
    || (next.providerFallback == policy && next.pipeline == run.pipeline)
    || (policy.Some? && next.providerFallback.Some?
        && ExtendsPolicy(policy.value, next.providerFallback.value, run, next.pipeline))
  }

  /** One more attempt, after `run`, under the same authorization. */
  ghost predicate ExtendsPolicy(before: FallbackPolicy, after: FallbackPolicy, run: Run, pipeline: Pipeline) {
    && after.principal == before.principal && after.sourceRepository == before.sourceRepository
    && after.allowedPipelines == before.allowedPipelines && after.originalRunId == before.originalRunId
    && after.attemptedPipelines == before.attemptedPipelines + [pipeline]
    && after.fromRunId == Some(run.runId)
    && after.trigger.Some? && after.trigger.value.limitedPipeline == run.pipeline
  }

  ghost predicate Audited(run: Run, d: Decision, now: int) {
    && (d.run.Some? ==> Appends(run, d.run.value, now) && OutcomeMatches(run, d.run.value, d.outbox))
    && (d.run.None? ==> d.outbox == [])
    && (d.additionalRun.Some? ==>
          Opens(d.additionalRun.value, now) && Descends(run.providerFallback, run, d.additionalRun.value))
    && AllFresh(d.outbox)
  }

  /** Within a claim, what the executor observed of its Job's placement stands. */
  ghost predicate KeepsPlacement(run: Run, d: Decision) {
    d.run.Some? && IsClaimed(run) && IsClaimed(d.run.value) ==>
      d.run.value.queue.value.startupPlacement == run.queue.value.startupPlacement
  }

  ghost predicate KeepsReport(run: Run, d: Decision) {
    d.run.Some? && IsClaimed(run) && IsClaimed(d.run.value) ==>
      d.run.value.queue.value.placementObservedAt == run.queue.value.placementObservedAt
  }

  /** A restore is recorded only for the claim that performs it. */
  ghost predicate RestoreMoves(run: Run, d: Decision) {
    d.run.Some? ==>
      || d.run.value.credentialRestoredClaimFingerprint == run.credentialRestoredClaimFingerprint
      || (d.run.value.credentialRestoredClaimFingerprint.Some?
          && IsClaimant(run, d.run.value.credentialRestoredClaimFingerprint.value))
  }

  /** Nothing announces the start of an issue. */
  ghost predicate Startless(entries: seq<OutboxEntry>) {
    forall i | 0 <= i < |entries| :: !entries[i].entryId.effect.IssueStart?
  }

  /** What every command but an observation of the executor does: it extends the trail,
      announces no issue start, and leaves the evidence of the claim alone. */
  ghost predicate Steady(run: Run, d: Decision, now: int) {
    Audited(run, d, now) && Startless(d.outbox) && KeepsPlacement(run, d) && KeepsReport(run, d)
  }

  lemma DispatchIsNoOutcome(entries: seq<OutboxEntry>, r: RunId, now: int, id: EntryId)
    requires !id.effect.DispatchRun?
    ensures Emits(entries + [NewEntry(DispatchRun, r, now)], id) <==> Emits(entries, id)
    ensures AllFresh(entries) ==> AllFresh(entries + [NewEntry(DispatchRun, r, now)])
    ensures Startless(entries) ==> Startless(entries + [NewEntry(DispatchRun, r, now)])
  {
    var joined := entries + [NewEntry(DispatchRun, r, now)];
    if Emits(entries, id) {
      var i :| 0 <= i < |entries| && entries[i].entryId == id;
      assert joined[i].entryId == id;
    }
  }

  // ---------------------------------------------------------------------- successors

  lemma RequestFrame(a: RequestArgs, t: Task, active: Option<Run>, d: Decision)
    requires RequestRun(a, Some(t), active) == Decided(d)
    ensures KeepsRouting(t, d) && d.task.consecutiveLost == t.consecutiveLost && d.run.Some?
    ensures d.run.value.sourceRevision == a.sourceRevision
    ensures d.run.value.providerFallback == MintedPolicy(a.providerFallback, a.pipeline, d.run.value.runId)
    ensures Opens(d.run.value, a.now) && d.outbox == [NewEntry(DispatchRun, d.run.value.runId, a.now)]
    ensures d.run.value.pipeline == a.pipeline && d.additionalRun.None?
  {
  }

  lemma UntriedShrinks(previous: Run, pipeline: Pipeline, reason: FallbackReason, failure: RunId)
    requires previous.providerFallback.Some? && pipeline in Untried(previous.providerFallback.value)
    ensures |Untried(SuccessorPolicy(previous, pipeline, reason, failure))|
         == |Untried(previous.providerFallback.value)| - 1
  {
    assert Untried(SuccessorPolicy(previous, pipeline, reason, failure))
        == Untried(previous.providerFallback.value) - {pipeline};
  }

  lemma SuccessorFrame(now: int, settled: Decision, pipeline: Pipeline, reason: FallbackReason, failure: RunId,
                       d: Decision)
    requires settled.run.Some? && settled.run.value.providerFallback.Some?
    requires pipeline in Untried(settled.run.value.providerFallback.value)
    requires Successor(now, settled, pipeline, reason, failure) == Decided(d)
    ensures KeepsRouting(settled.task, d) && d.task.consecutiveLost == settled.task.consecutiveLost
    ensures d.run == settled.run && d.additionalRun.Some? && d.additionalRun.value.sourceRevision.None?
    ensures |Alternatives(d.additionalRun.value.providerFallback)|
         == |Alternatives(settled.run.value.providerFallback)| - 1
    ensures Opens(d.additionalRun.value, now)
            && Descends(settled.run.value.providerFallback, settled.run.value, d.additionalRun.value)
    ensures d.outbox == settled.outbox + [NewEntry(DispatchRun, d.additionalRun.value.runId, now)]
  {
    var previous := settled.run.value;
    var a := SuccessorArgs(now, previous, pipeline, reason, failure);
    RequestFrame(a, settled.task, None, RequestRun(a, Some(settled.task), None).decision);
    UntriedShrinks(previous, pipeline, reason, failure);
  }

  /** A limit's successor, or the settlement itself. */
  lemma FallbackFrame(now: int, settled: Decision, authorized: seq<Pipeline>, available: seq<Pipeline>, d: Decision)
    requires settled.run.Some? && SettleProviderFallback(now, settled, authorized, available) == Decided(d)
    ensures KeepsRouting(settled.task, d) && d.run == settled.run
    ensures d == settled
            || (d.additionalRun.Some? && d.additionalRun.value.sourceRevision.None?
                && |Alternatives(d.additionalRun.value.providerFallback)| + 1
                   == |Alternatives(settled.run.value.providerFallback)|
                && Opens(d.additionalRun.value, now)
                && Descends(settled.run.value.providerFallback, settled.run.value, d.additionalRun.value)
                && d.outbox == settled.outbox + [NewEntry(DispatchRun, d.additionalRun.value.runId, now)])
  {
    FallbackCases(now, settled, authorized, available);
    if d != settled {
      SuccessorFrame(now, settled, FallbackChoice(settled.run.value, authorized, available).value, LimitReported,
                     settled.run.value.runId, d);
    }
  }

  // ------------------------------------------------------------------------- reports

  lemma SettledReportFrame(now: int, t: Task, run: Run, result: RunResult)
    requires t.activeRunId == Some(run.runId)
    ensures var d := SettledReport(now, t, run, result);
            && KeepsRouting(t, d) && KeepsOperation(run, d) && d.run.Some?
            && d.run.value.providerFallback == run.providerFallback
            && (run.sourceRevision.None? ==> d.additionalRun.None? && d.task.activeRunId.None?)
            && (d.additionalRun.None? ==> d.task.activeRunId.None?)
            && (IsLive(run.state) ==> Steady(run, d, now))
  {
    if IsLive(run.state) { SettledReportTrail(now, t, run, result); }
  }

  lemma SettledReportTrail(now: int, t: Task, run: Run, result: RunResult)
    requires IsLive(run.state)
    ensures Steady(run, SettledReport(now, t, run, result), now)
  {
  }

  /** A fallback keeps the frame of the settlement it follows. */
  lemma FollowFrame(now: int, t: Task, run: Run, settled: Decision, authorized: seq<Pipeline>, available: seq<Pipeline>,
                    d: Decision)
    requires settled.run.Some? && settled.run.value.providerFallback == run.providerFallback
    requires KeepsRouting(t, settled) && SpendsFuel(t, run, settled) && t.activeRunId == Some(run.runId)
    requires SettleProviderFallback(now, settled, authorized, available) == Decided(d)
    requires Steady(run, settled, now)
    requires settled.run.value.runId == run.runId && settled.run.value.pipeline == run.pipeline
    ensures KeepsRouting(t, d) && SpendsFuel(t, run, d) && d.run == settled.run && Steady(run, d, now)
  {
    FallbackFrame(now, settled, authorized, available, d);
    if d != settled {
      DispatchIsNoOutcome(settled.outbox, d.additionalRun.value.runId, now, EntryId(ReportOutcome, run.runId));
    }
  }

  lemma ReportFrame(now: int, t: Task, run: Run, fingerprint: Option<string>, result: RunResult, d: Decision)
    requires ReportResult(now, t, run, fingerprint, result) == Decided(d)
    ensures KeepsRouting(t, d) && KeepsOperation(run, d) && SpendsFuel(t, run, d) && Steady(run, d, now)
    ensures d.run.Some? && d.run.value.providerFallback == run.providerFallback
    ensures d.run.value.runId == run.runId && d.run.value.pipeline == run.pipeline
    ensures t.activeRunId == Some(run.runId)
  {
    ReportCases(now, t, run, fingerprint, result, d);
    if run.credentialOperation.None? { SettledReportFrame(now, t, run, result); }
  }

  lemma ReportFallbackFrame(now: int, t: Task, run: Run, fingerprint: Option<string>, result: RunResult,
                            authorized: seq<Pipeline>, available: seq<Pipeline>, d: Decision)
    requires ReportResultWithFallback(now, t, run, fingerprint, result, authorized, available) == Decided(d)
    ensures KeepsRouting(t, d) && KeepsOperation(run, d) && SpendsFuel(t, run, d) && Steady(run, d, now)
  {
    var settled := ReportResult(now, t, run, fingerprint, result).decision;
    ReportFrame(now, t, run, fingerprint, result, settled);
    FollowFrame(now, t, run, settled, authorized, available, d);
  }

  lemma ReportCommandFrame(now: int, t: Task, run: Run, cmd: RunCommand, d: Decision)
    requires cmd.Reported? && DecideReport(now, t, run, cmd) == Decided(d)
    ensures KeepsRouting(t, d) && KeepsOperation(run, d) && SpendsFuel(t, run, d) && Steady(run, d, now)
  {
    if cmd.reportAuthority.Some? && !cmd.result.ok {
      ReportFallbackFrame(now, t, run, cmd.reportFingerprint, cmd.result,
                          cmd.reportAuthority.value.authorized, cmd.reportAuthority.value.available, d);
    } else {
      ReportFrame(now, t, ReportingRun(run, cmd), cmd.reportFingerprint, cmd.result, d);
    }
  }

  lemma ChangeFrame(now: int, t: Task, run: Run, id: string, fingerprint: string, change: Change, d: Decision)
    requires ChangeCredentialOperation(now, t, run, id, fingerprint, change) == Decided(d)
    ensures KeepsRouting(t, d) && SpendsFuel(t, run, d) && Steady(run, d, now)
    ensures d.run.Some? && d.run.value.providerFallback == run.providerFallback
    ensures d.run.value.runId == run.runId && d.run.value.pipeline == run.pipeline
    ensures RestoreMoves(run, d)
    ensures change.Finish? && run.credentialPendingResult.Some? ==> t.activeRunId == Some(run.runId)
    ensures !change.Finish? ==> d.run.value.credentialOperation.Some? && d.run.value.state == run.state
  {
    if change.Finish? && run.credentialPendingResult.Some? {
      var pending := run.credentialPendingResult.value;
      ReportFrame(now, t, FinishedOperation(run, fingerprint, change.restored), Some(pending.claimFingerprint),
                  pending.result, d);
    }
  }

  lemma FinishFrame(now: int, t: Task, run: Run, cmd: RunCommand, d: Decision)
    requires cmd.OperationFinished? && DecideFinish(now, t, run, cmd) == Decided(d)
    ensures KeepsRouting(t, d) && SpendsFuel(t, run, d) && Steady(run, d, now)
    ensures RestoreMoves(run, d)
  {
    var change := Finish(cmd.restored, cmd.leaseRetiredAtSequence);
    var changed := ChangeCredentialOperation(now, t, run, cmd.finishId, cmd.finishFingerprint, change).decision;
    ChangeFrame(now, t, run, cmd.finishId, cmd.finishFingerprint, change, changed);
    if cmd.finishAuthority.Some? && run.credentialPendingResult.Some? {
      FollowFrame(now, t, run, changed, cmd.finishAuthority.value.authorized, cmd.finishAuthority.value.available, d);
    }
  }

  // ------------------------------------------------------------------------ losses

  lemma LossFrame(now: int, t: Task, run: Run, actor: Actor)
    requires t.activeRunId == Some(run.runId) && IsLive(run.state) && !actor.ByProviderFallback?
    ensures var d := RetryAfterLoss(SettleLost(now, t, run, actor), now);
            KeepsRouting(t, d) && KeepsOperation(run, d) && SpendsFuel(t, run, d) && Steady(run, d, now)
  {
  }

  lemma ExitFrame(now: int, t: Task, run: Run, claimant: Claimant, d: Decision)
    requires ExecutorExitedAndRetry(now, t, run, claimant) == Decided(d)
    ensures KeepsRouting(t, d) && KeepsOperation(run, d) && SpendsFuel(t, run, d) && Steady(run, d, now)
  {
    ExitCases(now, t, run, claimant, d);
    if IsLive(run.state) { LossFrame(now, t, run, ByExecutor); }
  }

  lemma CancelFrame(now: int, t: Task, run: Run, note: Option<Note>, nativeTask: Option<string>, d: Decision)
    requires CancelRun(now, t, run, note, nativeTask) == Decided(d)
    requires note.Some? ==> !note.value.LabelHandoff?
    requires IsLive(run.state) ==> t.activeRunId == Some(run.runId)
    ensures KeepsRouting(t, d) && KeepsOperation(run, d) && SpendsFuel(t, run, d) && Steady(run, d, now)
    ensures run.credentialOperation.None? && IsLive(run.state)
  {
  }

  lemma RerouteFrame(now: int, t: Task, run: Run, cooldown: Option<Cooldown>, authorized: seq<Pipeline>,
                     available: seq<Pipeline>, d: Decision)
    requires RerouteQueuedRun(now, t, run, cooldown, authorized, available) == Decided(d)
    ensures KeepsRouting(t, d) && KeepsOperation(run, d) && SpendsFuel(t, run, d) && Steady(run, d, now)
    ensures !IsClaimed(run)
  {
    var pipeline := SelectFallbackPipeline(run, authorized, available).value;
    SelectionIsUntried(run, authorized, available);
    SuccessorFrame(now, RerouteSettlement(now, t, run, cooldown.value.runId, pipeline), pipeline, CoolingDown,
                   cooldown.value.runId, d);
  }

  lemma InvalidateFrame(now: int, t: Task, run: Run, observed: map<string, int>, d: Decision)
    requires InvalidateSourceRevision(now, t, run, observed) == Decided(d)
    requires IsLive(run.state) ==> t.activeRunId == Some(run.runId)
    ensures KeepsRouting(t, d) && KeepsOperation(run, d) && SpendsFuel(t, run, d) && Steady(run, d, now)
  {
  }

  predicate IsCorrection(cmd: RunCommand) {
    cmd.DeliveryObserved? && cmd.observation.Correction?
  }

  lemma DeliveryFrame(now: int, t: Task, run: Run, observation: Observation, authorized: bool, d: Decision)
    requires AdvanceDelivery(now, t, run, observation, authorized) == Decided(d)
    ensures KeepsRouting(t, d) && KeepsOperation(run, d) && (!observation.Correction? ==> SpendsFuel(t, run, d))
    ensures Steady(run, d, now)
  {
    if observation.Correction? && DeliveryWaiting(t) {
      CorrectionCases(now, t, run, observation, authorized, d);
      var a := CorrectionArgs(now, run, observation.context);
      RequestFrame(a, t.(delivery := None), None, RequestRun(a, Some(t.(delivery := None)), None).decision);
    }
  }

  // ------------------------------------------------------------------- all commands

  predicate OwnsOperation(cmd: RunCommand) {
    cmd.OperationReserved? || cmd.OperationChanged? || cmd.OperationFinished?
  }

  ghost predicate Framed(t: Task, run: Run, cmd: RunCommand, d: Decision, now: int) {
    && KeepsRouting(t, d)
    && (!OwnsOperation(cmd) ==> KeepsOperation(run, d))
    && (!IsCorrection(cmd) ==> SpendsFuel(t, run, d))
    && Audited(run, d, now)
    && (!cmd.Renewed? ==> Startless(d.outbox))
    && (!cmd.StartupObserved? ==> KeepsPlacement(run, d))
    && (!cmd.PlacementObserved? ==> KeepsReport(run, d))
    && RestoreMoves(run, d)
  }

  lemma ObservationFrame(now: int, t: Task, run: Run, cmd: RunCommand, d: Decision)
    requires DecideCommand(now, t, run, cmd) == Decided(d)
    requires cmd.DispatchConfirmed? || cmd.StartupObserved? || cmd.PlacementObserved? || cmd.Renewed?
    ensures Framed(t, run, cmd, d, now)
  {
  }

  lemma SettlementFrame(now: int, t: Task, run: Run, cmd: RunCommand, d: Decision)
    requires DecideCommand(now, t, run, cmd) == Decided(d)
    requires cmd.Reported? || cmd.LeaseExpired? || cmd.WorkerExited?
    ensures Framed(t, run, cmd, d, now)
  {
    match cmd {
      case Reported(_, _, _, _, _) => ReportCommandFrame(now, t, run, cmd, d);
      case LeaseExpired => LossFrame(now, t, run, ByExpiry);
      case WorkerExited(claimant) => ExitFrame(now, t, run, claimant, d);
    }
  }

  lemma CancellationFrame(now: int, t: Task, run: Run, cmd: RunCommand, d: Decision)
    requires DecideCommand(now, t, run, cmd) == Decided(d)
    requires IsLive(run.state) ==> t.activeRunId == Some(run.runId)
    requires cmd.CancelRequested? || cmd.CancelUnclaimedBefore? || cmd.SourceInvalidated?
    ensures Framed(t, run, cmd, d, now)
  {
    match cmd {
      case CancelRequested(note, nativeTask) => CancelFrame(now, t, run, FreeText(note), nativeTask, d);
      case CancelUnclaimedBefore(_, note, _) => CancelFrame(now, t, run, FreeText(note), None, d);
      case SourceInvalidated(observed) => InvalidateFrame(now, t, run, observed, d);
    }
  }

  lemma OperationFrame(now: int, t: Task, run: Run, cmd: RunCommand, d: Decision)
    requires DecideCommand(now, t, run, cmd) == Decided(d) && OwnsOperation(cmd)
    ensures Framed(t, run, cmd, d, now)
  {
    match cmd {
      case OperationReserved(_, _, _) =>
      case OperationChanged(id, fingerprint, change) => ChangeFrame(now, t, run, id, fingerprint, change, d);
      case OperationFinished(_, _, _, _, _) => FinishFrame(now, t, run, cmd, d);
    }
  }

  /** Every accepted command keeps its frame. */
  lemma CommandFrame(now: int, t: Task, run: Run, cmd: RunCommand, d: Decision)
    requires DecideCommand(now, t, run, cmd) == Decided(d)
    requires IsLive(run.state) ==> t.activeRunId == Some(run.runId)
    ensures Framed(t, run, cmd, d, now)
  {
    if cmd.DispatchConfirmed? || cmd.StartupObserved? || cmd.PlacementObserved? || cmd.Renewed? {
      ObservationFrame(now, t, run, cmd, d);
    } else if cmd.Reported? || cmd.LeaseExpired? || cmd.WorkerExited? {
      SettlementFrame(now, t, run, cmd, d);
    } else if cmd.CancelRequested? || cmd.CancelUnclaimedBefore? || cmd.SourceInvalidated? {
      CancellationFrame(now, t, run, cmd, d);
    } else if OwnsOperation(cmd) {
      OperationFrame(now, t, run, cmd, d);
    } else if cmd.QueuedRerouted? {
      RerouteFrame(now, t, run, cmd.cooldown, cmd.rerouteAuthority.authorized, cmd.rerouteAuthority.available, d);
    } else {
      DeliveryFrame(now, t, run, cmd.observation, cmd.correctionAuthorized, d);
    }
  }

  /** Reserving cleanup changes only the settled run. */
  lemma CleanupFrame(run: Run, d: Decision, cleanupId: string)
    ensures var o := WithCleanup(run, Decided(d), cleanupId);
            o.Decided? ==>
              && o.decision == d.(run := o.decision.run)
              && (o.decision.run.Some? <==> d.run.Some?)
              && (d.run.Some? ==>
                    o.decision.run.value == d.run.value.(
                      credentialOperation := o.decision.run.value.credentialOperation,
                      updatedAt := o.decision.run.value.updatedAt))
  {
  }

  /** The whole transaction on a run keeps the frame of its command. */
  lemma OnRunFrame(now: int, t: Task, run: Run, cmd: RunCommand, cleanupId: string, d: Decision)
    requires DecideOnRun(now, t, run, cmd, cleanupId) == Decided(d)
    requires IsLive(run.state) ==> t.activeRunId == Some(run.runId)
    ensures KeepsRouting(t, d) && (!IsCorrection(cmd) ==> SpendsFuel(t, run, d)) && Audited(run, d, now)
    ensures !cmd.Renewed? ==> Startless(d.outbox)
    ensures !cmd.StartupObserved? ==> KeepsPlacement(run, d)
    ensures !cmd.PlacementObserved? ==> KeepsReport(run, d)
    ensures RestoreMoves(run, d)
  {
    var e := DecideCommand(now, t, run, cmd).decision;
    CommandFrame(now, t, run, cmd, e);
    CleanupFrame(run, e, cleanupId);
  }
}
