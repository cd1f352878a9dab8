/** What each operation on a run does to what may happen to it next: leases and the
    expiry they hold off, reports and their replays, losses, fallbacks and retries. */
module Lifecycle {
  import opened Model
  import opened Decide
  import opened Credential
  import opened Fallback
  import opened Delivery
  import opened Routing
  import opened Orchestrator
  import opened Ledgers
  import opened Invariants
  import opened Primitives
  import opened TouchSteps
  import MintSteps
  import opened CommandPlans
  import opened Outbox

  // ------------------------------------------------------------------ leases and expiry

  /** The run may be declared lost from this instant on, and not before. */
  ghost predicate ExpiresExactlyAt(t: Task, run: Run, at: int) {
    forall now :: ExpireLease(now, t, run).Decided? <==> at <= now
  }

  /** A live, idle run expires exactly at its recovery deadline: once its lease ran out, or
      its claim's start deadline passed unheard; a queued one never. */
  lemma ExpiryFollowsDeadline(t: Task, run: Run, now: int)
    requires Held(t, run, now) && IsLive(run.state) && run.credentialOperation.None?
    ensures if IsQueued(run) then forall at :: ExpireLease(at, t, run).Refused?
            else ExpiresExactlyAt(t, run, RecoveryDeadline(run).value)
    ensures !IsQueued(run) ==> forall at :: ExpireLease(at, t, run).Decided? <==>
              || run.leaseExpiresAt <= at
              || (IsClaimed(run) && run.queue.value.firstHeartbeatAt.None?
                  && run.queue.value.startDeadlineAt.value <= at)
  {
  }

  /** A dispatched run that nothing queues has two hours. */
  lemma DispatchHoldsLease(now: int, t: Task, run: Run)
    requires Held(t, run, now) && run.state.Pending? && run.queue.None?
    ensures var o := ConfirmDispatch(now, t, run);
            o.Decided? && o.decision.run.Some? && o.decision.run.value.state.Running?
            && ExpiresExactlyAt(o.decision.task, o.decision.run.value, now + 120 * MINUTES)
  {
    assert GoodOperation(run);
  }

  /** A claim must start within fifteen minutes. */
  lemma ClaimStartsClock(now: int, t: Task, run: Run, claimedBy: string, subject: string, tokenHash: string,
                         aware: bool)
    requires Held(t, run, now) && IsQueueAdmissionCandidate(run, now)
    ensures var claimed := ClaimQueuedRun(run, now, claimedBy, subject, tokenHash, aware);
            IsClaimant(claimed, tokenHash) && !IsQueueAdmissionCandidate(claimed, now)
            && ExpiresExactlyAt(t, claimed, now + 15 * MINUTES)
  {
  }

  /** A claimant's heartbeat is accepted exactly while its run is live and in time,
      and then holds expiry off for two hours from it. */
  lemma HeartbeatHoldsLease(now: int, t: Task, run: Run, fingerprint: string, started: bool)
    requires Held(t, run, now)
    ensures var o := RenewLease(now, t, run, Some(fingerprint), started);
            && (o.Decided? <==> IsLive(run.state) && IsClaimant(run, fingerprint) && !RecoveryDeadlineElapsed(run, now))
            && (o.Decided? ==>
                  o.decision.run.Some? && o.decision.run.value.queue.Some?
                  && o.decision.run.value.queue.value.firstHeartbeatAt
                     == Some(if run.queue.value.firstHeartbeatAt.Some? then run.queue.value.firstHeartbeatAt.value
                              else now)
                  && (run.credentialOperation.None? ==>
                        ExpiresExactlyAt(o.decision.task, o.decision.run.value, now + 120 * MINUTES)))
  {
  }

  /** A placed Job restarts the fifteen minutes; a waiting one never gets past the hour. */
  lemma PlacementMovesDeadline(now: int, t: Task, run: Run, claimant: Claimant, jobUid: string, observedAt: int,
                               placed: bool)
    requires Held(t, run, now) && run.credentialOperation.None?
    requires ObserveStartupPlacement(now, t, run, claimant, jobUid, observedAt, placed).Decided?
    requires run.queue.value.firstHeartbeatAt.None? && !run.queue.value.startupPlacement.value.placed
    ensures var after := ObserveStartupPlacement(now, t, run, claimant, jobUid, observedAt, placed).decision.run.value;
            var hour := run.queue.value.claimedAt.value + 60 * MINUTES;
            && (var renewed := now + 15 * MINUTES;
                ExpiresExactlyAt(t, after, if placed || renewed <= hour then renewed else hour))
            && after.queue.value.startupPlacement == Some(StartupPlacement(placed, observedAt, Some(jobUid)))
  {
  }

  // ------------------------------------------------------------------------- reports

  /** A claimant's report of a run without external work is accepted exactly while the
      run is live and in time. */
  lemma ReportAcceptedInTime(now: int, t: Task, run: Run, fingerprint: string, result: RunResult)
    requires Held(t, run, now) && run.credentialOperation.None?
    ensures ReportResult(now, t, run, Some(fingerprint), result).Decided?
            <==> IsLive(run.state) && IsClaimant(run, fingerprint) && !RecoveryDeadlineElapsed(run, now)
  {
    assert GoodPending(run, now);
  }

  /** The key of a revision, if there is one. */
  function RevisionKey(revision: Option<WorkRevision>): Option<string> {
    if revision.Some? then Some(revision.value.key) else None
  }

  /** The run carries a revision, and the task desires no such one any more. */
  predicate Outdated(t: Task, run: Run) {
    run.sourceRevision.Some? && RevisionKey(t.desiredRevision) != RevisionKey(run.sourceRevision)
  }

  /** And it desires another. */
  predicate Overtaken(t: Task, run: Run) {
    Outdated(t, run) && t.desiredRevision.Some?
  }

  /** The text has something besides white space. */
  predicate Says(text: string) {
    exists i :: 0 <= i < |text| && text[i] !in " \t\n\r"
  }

  /** What a settled report leaves: the result, marked when its revision was overtaken,
      a free lock, and the effects its outcome asks for. */
  lemma ReportSettles(now: int, t: Task, run: Run, result: RunResult)
    requires Held(t, run, now) && IsLive(run.state) && run.credentialOperation.None?
    ensures var d := ReportSettlement(now, t, run, result);
            && d.run.Some? && d.run.value.state.Finished? && d.task.activeRunId.None? && d.task.consecutiveLost == 0
            && d.run.value.result
               == Some(if Outdated(t, run) then result.(summary := Some(Superseded)) else result)
            && Emits(d.outbox, EntryId(ReportOutcome, run.runId))
            && (Emits(d.outbox, EntryId(PublishTriage, run.runId)) <==>
                  result.ok && run.triagePublication == Some(TriagePending)
                  && RevisionKey(t.desiredRevision) == RevisionKey(run.sourceRevision))
            && (Emits(d.outbox, EntryId(HandoffSummary, run.runId)) <==>
                  !Outdated(t, run) && result.summary == Some(Park)
                  && result.message.Some? && Says(result.message.value))
  {
    var d := ReportSettlement(now, t, run, result);
    var settled := SettledByReport(now, t, run, result);
    var effects := SettleEffects(settled, now);
    assert effects[0].entryId == EntryId(ReportOutcome, run.runId);
    EffectsListed(settled, now);
    assert forall i | 0 <= i < |effects| :: d.outbox[i] == effects[i];
    assert forall i | |effects| <= i < |d.outbox| ::
      d.outbox[i].entryId.effect.MonitorDelivery? || d.outbox[i].entryId.effect.DeliveryOutcome?;
  }

  /** Membership of a settlement's effects, by position. */
  lemma EffectsListed(settled: Run, now: int)
    requires settled.state.Finished? && settled.result.Some?
    ensures var effects := SettleEffects(settled, now);
            && (Emits(effects, EntryId(PublishTriage, settled.runId)) <==>
                  settled.result.value.ok && settled.triagePublication == Some(TriagePending))
            && (Emits(effects, EntryId(HandoffSummary, settled.runId)) <==>
                  settled.result.value.summary == Some(Park) && settled.result.value.message.Some?
                  && !Blank(settled.result.value.message.value))
  {
    var effects := SettleEffects(settled, now);
    var triage := settled.result.value.ok && settled.triagePublication == Some(TriagePending);
    assert triage ==> effects[1].entryId == EntryId(PublishTriage, settled.runId);
    assert settled.result.value.summary == Some(Park) && settled.result.value.message.Some?
           && !Blank(settled.result.value.message.value) ==>
             effects[if triage then 2 else 1].entryId == EntryId(HandoffSummary, settled.runId);
  }

  /** Replaying a settled report changes nothing and shows the settled run. */
  lemma ReplayedReportShowsResult(now: int, later: int, t: Task, run: Run, fingerprint: Option<string>,
                                  result: RunResult,
                                  other: RunResult)
    requires Held(t, run, now) && IsLive(run.state) && run.credentialOperation.None?
    requires fingerprint.Some? ==> IsClaimant(run, fingerprint.value)
    ensures var d := ReportSettlement(now, t, run, result);
            ReportResult(later, d.task, d.run.value, fingerprint, other) == Refused(RunNotLive, d.run)
  {
  }

  /** A delivery is bound to the task exactly by a successful report that carries one. */
  lemma DeliveryBoundBySuccess(now: int, t: Task, run: Run, result: RunResult)
    requires Held(t, run, now) && IsLive(run.state) && run.credentialOperation.None?
    ensures var d := ReportSettlement(now, t, run, result);
            && d.task.delivery == (if result.ok && run.delivery.Some? then run.delivery else t.delivery)
            && (Emits(d.outbox, EntryId(MonitorDelivery, run.runId)) <==>
                  result.ok && run.delivery.Some? && !(t.task.Work? && run.delivery.value.state.Complete?))
            && (Emits(d.outbox, EntryId(DeliveryOutcome, run.runId)) <==>
                  result.ok && run.delivery.Some? && t.task.Work? && run.delivery.value.state.Complete?)
  {
    var d := ReportSettlement(now, t, run, result);
    var effects := SettleEffects(SettledByReport(now, t, run, result), now);
    assert forall i | 0 <= i < |effects| :: d.outbox[i] == effects[i];
    assert result.ok && run.delivery.Some? ==>
      |d.outbox| == |effects| + 1
      && d.outbox[|effects|].entryId
         == EntryId(if t.task.Work? && run.delivery.value.state.Complete? then DeliveryOutcome else MonitorDelivery,
                    run.runId);
  }

  // --------------------------------------------------------------- losses and retries

  /** The successor repeats the lost run: same provider, parameters, issue and policy. */
  ghost predicate Repeats(lost: Run, next: Run) {
    && next.pipeline == lost.pipeline && next.priority == lost.priority && next.params == lost.params
    && next.issue == lost.issue && next.sourceRevision == lost.sourceRevision
    && next.providerFallback == lost.providerFallback
    && next.requestSource.AutoRetry? && next.requestId == RetryOf(lost.runId)
    && (lost.sourceRevision.Some? ==>
          lost.revisionAttempt.Some? && next.revisionAttempt == Some(lost.revisionAttempt.value + 1))
  }

  /** A first attempt of the revision the task now desires, with the provider and
      parameters of the run it replaces. */
  ghost predicate Overtakes(t: Task, lost: Run, next: Run)
    requires t.desiredRevision.Some?
  {
    && next.sourceRevision == t.desiredRevision && next.revisionAttempt == Some(1)
    && next.requestSource.Caller? && next.requestId == Raw(t.desiredRevision.value.key)
    && next.pipeline == lost.pipeline && next.priority == lost.priority && next.params == lost.params
    && next.issue == t.issue && next.providerFallback.None?
  }

  /** What a lost run may be followed by: the revision that overtook it, or within the
      budgets of losses and attempts itself again. */
  predicate Followable(t: Task, run: Run) {
    && !run.pipeline.Goose?
    && (|| Overtaken(t, run)
        || (t.consecutiveLost < 2
            && (run.sourceRevision.Some? ==>
                  t.desiredRevision.Some? && run.revisionAttempt.Some? && run.revisionAttempt.value <= 2)))
  }

  /** A loss is followed by a run exactly then: by the first attempt of the revision that
      overtook it, the losses forgotten, or by a run that repeats it. */
  lemma LossRetriedWithinBudget(now: int, t: Task, run: Run, actor: Actor)
    requires Held(t, run, now) && IsLive(run.state) && run.credentialOperation.None?
    ensures var lost := SettleLost(now, t, run, actor);
            var d := RetryAfterLoss(lost, now);
            && d.run.Some? && d.run.value.state.Lost?
            && (d.additionalRun.Some? <==> Followable(t, run))
            && (if Followable(t, run) && Overtaken(t, run)
                then d.task.consecutiveLost == 0 && Overtakes(t, run, d.additionalRun.value)
                else d.task.consecutiveLost == t.consecutiveLost + 1
                     && (d.additionalRun.Some? ==> Repeats(run, d.additionalRun.value)))
            && d.task.activeRunId == (if d.additionalRun.Some? then Some(d.additionalRun.value.runId) else None)
  {
    assert run.providerFallback.Some? ==> GoodPolicy(run.providerFallback.value, run.pipeline);
  }

  /** The audit trail says who settled a lost run, and which start deadline it missed:
      placement while its Job still waited, the heartbeat otherwise, none once it started. */
  lemma LossNamesItsDeadline(now: int, t: Task, run: Run, actor: Actor)
    requires Held(t, run, now) && IsLive(run.state)
    ensures var lost := SettleLost(now, t, run, actor).run.value;
            && |lost.events| == |run.events| + 1 && run.events < lost.events
            && var last := lost.events[|run.events|];
               && last.at == now && last.to.Lost? && last.actor == actor
               && (last.note.Some? <==> actor.ByExpiry? && IsClaimed(run) && run.queue.value.firstHeartbeatAt.None?
                                        && run.queue.value.startDeadlineAt.value <= now)
               && (last.note == Some(PlacementDeadlineExceeded) <==>
                     last.note.Some? && run.queue.value.startupPlacement.Some?
                     && !run.queue.value.startupPlacement.value.placed)
  {
  }

  /** Only the executor that claimed a live run, by its own token, can lose it early. */
  lemma ExitNeedsClaimant(now: int, t: Task, run: Run, claimant: Claimant)
    requires Held(t, run, now) && IsLive(run.state)
    ensures ExecutorExitedAndRetry(now, t, run, claimant).Decided?
            <==> OwnsClaim(run, claimant) && run.credentialOperation.None?
  {
  }

  // ----------------------------------------------------------------- source revisions

  /** A settled run whose revision was overtaken is followed by exactly one run for the
      revision the task now desires, as its first attempt, unless it bound a delivery. */
  lemma OvertakenRevisionSucceeded(now: int, t: Task, run: Run, result: RunResult)
    requires Held(t, run, now) && IsLive(run.state) && run.credentialOperation.None? && Overtaken(t, run)
    ensures var d := SettledReport(now, t, run, result);
            && d.run.value.result == Some(result.(summary := Some(Superseded)))
            && (d.additionalRun.Some? <==> !(result.ok && run.delivery.Some?))
            && (d.additionalRun.Some? ==> Overtakes(t, run, d.additionalRun.value))
            && d.task.consecutiveLost == 0
            && d.task.activeRunId == (if d.additionalRun.Some? then Some(d.additionalRun.value.runId) else None)
  {
  }

  /** A run whose revision is still desired is repeated exactly after a failure within its
      attempts: on the same provider, at the same priority, with the same parameters. */
  lemma CurrentRevisionRetried(now: int, t: Task, run: Run, result: RunResult)
    requires Held(t, run, now) && IsLive(run.state) && run.credentialOperation.None?
    requires run.sourceRevision.Some? && !Outdated(t, run)
    ensures var d := SettledReport(now, t, run, result);
            && d.run.value.result == Some(result)
            && (d.additionalRun.Some? <==> !result.ok && run.revisionAttempt.value <= 2)
            && (d.additionalRun.Some? ==>
                  && Repeats(run.(sourceRevision := t.desiredRevision), d.additionalRun.value)
                  && d.additionalRun.value.providerFallback.None?)
            && d.task.consecutiveLost == 0
            && d.task.activeRunId == (if d.additionalRun.Some? then Some(d.additionalRun.value.runId) else None)
  {
  }

  /** A run whose revision was withdrawn, or that has none, is followed by no other attempt. */
  lemma WithdrawnRevisionEnds(now: int, t: Task, run: Run, result: RunResult)
    requires Held(t, run, now) && IsLive(run.state) && run.credentialOperation.None?
    requires run.sourceRevision.None? || t.desiredRevision.None?
    ensures var d := SettledReport(now, t, run, result);
            d.additionalRun.None? && d.task.activeRunId.None? && d.task.consecutiveLost == 0
  {
  }

  // -------------------------------------------------------------------------- fallback

  ghost predicate EligibleAt(allowed: seq<Pipeline>, barred: seq<Pipeline>, authorized: seq<Pipeline>,
                             available: seq<Pipeline>, i: nat)
    requires i < |allowed|
  {
    allowed[i] !in barred && allowed[i] in authorized && allowed[i] in available
  }

  /** The policy's order decides: the choice is the first eligible pipeline, and there
      is one exactly when some listed pipeline is eligible. */
  lemma {:induction false} FirstEligibleIsFirst(allowed: seq<Pipeline>, barred: seq<Pipeline>,
                                                authorized: seq<Pipeline>, available: seq<Pipeline>)
    ensures var p := FirstEligible(allowed, barred, authorized, available);
            if p.Some? then
              exists i :: 0 <= i < |allowed| && allowed[i] == p.value
                          && EligibleAt(allowed, barred, authorized, available, i)
                          && forall k | 0 <= k < i :: !EligibleAt(allowed, barred, authorized, available, k)
            else forall i | 0 <= i < |allowed| :: !EligibleAt(allowed, barred, authorized, available, i)
    decreases |allowed|
  {
    if allowed != [] {
      var rest := allowed[1..];
      FirstEligibleIsFirst(rest, barred, authorized, available);
      forall i | 1 <= i < |allowed|
        ensures EligibleAt(allowed, barred, authorized, available, i)
                <==> EligibleAt(rest, barred, authorized, available, i - 1)
      {
        assert rest[i - 1] == allowed[i];
      }
      var p := FirstEligible(allowed, barred, authorized, available);
      if EligibleAt(allowed, barred, authorized, available, 0) {
        assert allowed[0] == p.value;
      } else if p.Some? {
        var i :| 0 <= i < |rest| && rest[i] == p.value && EligibleAt(rest, barred, authorized, available, i)
                 && forall k | 0 <= k < i :: !EligibleAt(rest, barred, authorized, available, k);
        assert allowed[i + 1] == p.value && EligibleAt(allowed, barred, authorized, available, i + 1);
      }
    }
  }

  /** A successor starts afresh on its provider: it resumes nothing, keeps everything
      else it was asked, records the attempt and names its cause. */
  lemma SuccessorStartsAfresh(now: int, settled: Decision, pipeline: Pipeline, reason: FallbackReason, failure: RunId,
                              d: Decision)
    requires settled.run.Some? && settled.run.value.providerFallback.Some?
    requires settled.run.value.providerFallback.value.allowedPipelines != []
    requires Successor(now, settled, pipeline, reason, failure) == Decided(d)
    ensures d.run == settled.run && d.additionalRun.Some?
    ensures var previous, next := settled.run.value, d.additionalRun.value;
            && next.state.Pending? && next.pipeline == pipeline && next.priority == previous.priority
            && next.params.resumeSessionId.None? && next.params.resumeTranscriptGcsUri.None?
            && next.params.(resumeSessionId := previous.params.resumeSessionId,
                            resumeTranscriptGcsUri := previous.params.resumeTranscriptGcsUri) == previous.params
            && next.issue == previous.issue && next.requestId == FallbackOf(previous.runId)
            && next.requestSource.ProviderFallback? && next.sourceRevision.None? && next.providerFallback.Some?
            && var policy := next.providerFallback.value;
            && policy.attemptedPipelines == previous.providerFallback.value.attemptedPipelines + [pipeline]
            && policy.fromRunId == Some(previous.runId)
            && policy.trigger == Some(FallbackTrigger(reason, failure, previous.pipeline))
            && policy == previous.providerFallback.value.(attemptedPipelines := policy.attemptedPipelines,
                                                          fromRunId := policy.fromRunId, trigger := policy.trigger)
            && d.task.activeRunId == Some(next.runId)
  {
  }

  // ---------------------------------------------------------------------- cancellation

  /** A caller may cancel exactly a live run without external work, and nothing follows it. */
  lemma CancelAccepted(now: int, t: Task, run: Run, note: Option<Note>)
    requires Held(t, run, now)
    ensures var o := CancelRun(now, t, run, note, None);
            && (o.Decided? <==> IsLive(run.state) && run.credentialOperation.None?)
            && (o.Decided? ==> o.decision.run.Some? && o.decision.run.value.state.Canceled?
                               && o.decision.run.value.result.None? && o.decision.additionalRun.None?
                               && o.decision.task.activeRunId.None? && o.decision.task.consecutiveLost == 0
                               && o.decision.task.closedAt == t.closedAt)
  {
  }

  /** Canceling the run that answers a waiting native delivery closes the task. */
  lemma NativeCancelCloses(now: int, t: Task, run: Run, note: Option<Note>, native: string)
    requires Held(t, run, now) && IsLive(run.state) && run.credentialOperation.None?
    ensures var o := CancelRun(now, t, run, note, Some(native));
            && (o.Decided? <==> t.task == Work(native))
            && (o.Decided? ==> (o.decision.task.closedAt.Some? <==> DeliveryWaiting(t)))
  {
  }

  // ----------------------------------------------------------------------------- outbox

  /** A delivery put back with a retry time is not handed out before it, unless woken:
      from the wake on it is due. */
  lemma BackoffIsHonored(entry: OutboxEntry, settlement: Settlement, at: int, now: int)
    requires OwnsLease(entry, settlement.claimId) && settlement.state.ToPending? && settlement.nextAttemptAt == Some(at)
    ensures var after := SettleOutboxEntry(entry, settlement);
            && after.Some? && !EntryExpired(after.value, now)
            && (Due(after.value, now) <==> at <= now)
            && (WakeOutboxEntry(after.value, now).Some? <==> now < at)
            && (WakeOutboxEntry(after.value, now).Some? ==>
                  forall later | now <= later :: Due(WakeOutboxEntry(after.value, now).value, later))
  {
  }

  // ------------------------------------------------------------------- queue and reroute

  /** A released claim returns the run to the queue, open again when its deferral ends,
      with nothing left of the old claim. */
  lemma ReleaseReopens(l: Ledger, now: int, r: RunId, claimedBy: string, tokenHash: string,
                       deferredUntil: Option<int>, at: int)
    requires Reads(l, r, now) && MayRelease(l.runs[r], claimedBy, tokenHash)
    ensures var k := ReleaseRun(l, now, r, claimedBy, tokenHash, deferredUntil);
            && r in k.runs && k.task == l.task
            && (IsQueueAdmissionCandidate(k.runs[r], at) <==> deferredUntil.None? || deferredUntil.value <= at)
            && (forall token :: !IsClaimant(k.runs[r], token))
            && k.runs[r] == l.runs[r].(queue := k.runs[r].queue, updatedAt := now)
  {
    ReadsHeld(l, r, now);
  }

  /** A queued run is moved exactly while it is open to claims, its provider cools down
      and its policy has an authorized, available alternative left. */
  lemma RerouteMovesWaitingRun(l: Ledger, now: int, r: RunId, cooldown: Option<Cooldown>, authorized: seq<Pipeline>,
                               available: seq<Pipeline>)
    requires Reads(l, r, now)
    ensures RerouteQueuedRun(now, l.task.value, l.runs[r], cooldown, authorized, available).Decided?
            <==> && IsQueueAdmissionCandidate(l.runs[r], now)
                 && cooldown.Some? && now < cooldown.value.expiresAt && cooldown.value.pipeline == l.runs[r].pipeline
                 && SelectFallbackPipeline(l.runs[r], authorized, available).Some?
  {
    ReadsHeld(l, r, now);
    assert GoodOperation(l.runs[r]);
    var choice := SelectFallbackPipeline(l.runs[r], authorized, available);
    if IsQueueAdmissionCandidate(l.runs[r], now) && choice.Some? && cooldown.Some? {
      MintSteps.SelectionIsUntried(l.runs[r], authorized, available);
      RerouteTouches(now, l.task.value, l.runs[r], cooldown.value.runId, choice.value);
      var plan := SuccessorPlan(l, r, RerouteSettlement(now, l.task.value, l.runs[r], cooldown.value.runId,
                                                        choice.value),
                                now, choice.value, CoolingDown, cooldown.value.runId);
    }
  }

  // --------------------------------------------------------------------------- delivery

  /** A waiting delivery is corrected at most once, by a run that succeeds the bound one. */
  lemma CorrectedOnce(now: int, later: int, t: Task, run: Run, observation: Observation, other: Observation,
                      d: Decision)
    requires Held(t, run, now) && observation.Correction? && other.Correction? && DeliveryWaiting(t)
    requires AdvanceDelivery(now, t, run, observation, true) == Decided(d)
    ensures d.additionalRun.Some?
            && d.task.delivery == Some(t.delivery.value.(correctionRunId := Some(d.additionalRun.value.runId)))
    ensures d.additionalRun.value.params.deliveryPredecessor == Some(run.runId)
            && d.additionalRun.value.params.context == Some(observation.context)
    ensures AdvanceDelivery(later, d.task.(activeRunId := None), run, other, true).Refused?
  {
    CorrectionCases(now, t, run, observation, true, d);
  }

  /** A revised head answers to its new name only. */
  lemma RevisedHeadMoves(now: int, later: int, t: Task, run: Run, observation: Observation, next: Observation,
                         d: Decision)
    requires observation.Revised? && DeliveryWaiting(t)
    requires AdvanceDelivery(now, t, run, observation, false) == Decided(d)
    requires next.ObservedWaiting?
    ensures d.run.Some? && DeliveryWaiting(d.task)
    ensures AdvanceDelivery(later, d.task, d.run.value, next, false).Decided? <==> next.head == observation.newHead
  {
  }

  /** A merged delivery is complete for good: nothing about it changes again. */
  lemma MergeCompletes(now: int, later: int, t: Task, run: Run, merged: Observation, next: Observation,
                       authorized: bool, d: Decision)
    requires merged.Merged? && DeliveryWaiting(t) && AdvanceDelivery(now, t, run, merged, authorized) == Decided(d)
    ensures d.run.Some? && !DeliveryWaiting(d.task) && d.task.delivery.Some?
            && d.task.delivery.value.mergeCommit == Some(merged.mergeCommit)
    ensures d.outbox == if t.task.Work? then [NewEntry(DeliveryOutcome, run.runId, now)] else []
    ensures var o := AdvanceDelivery(later, d.task, d.run.value, next, authorized);
            o.Decided? ==> o.decision == Decision(d.task, d.run, None, [])
  {
  }

  // -------------------------------------------------------------- executors and claims

  /** A placement observation never moves expiry, and never goes back in time. */
  lemma ObservationsNeverRenew(now: int, later: int, t: Task, run: Run, claimant: Claimant, first: int, second: int,
                               d: Decision)
    requires ObservePlacement(now, t, run, claimant, first) == Decided(d)
    ensures d.run.Some? && d.task == t && RecoveryDeadline(d.run.value) == RecoveryDeadline(run)
    ensures ObservePlacement(later, t, d.run.value, claimant, second).Decided? ==> first <= second <= later
  {
  }

  /** An accepted exit frees the executor at once, unless the run used Codex credentials:
      its claim is kept, with cleanup authority over it. */
  lemma ExitFreesExecutor(now: int, t: Task, run: Run, claimant: Claimant, cleanupId: string, d: Decision)
    requires Held(t, run, now) && IsLive(run.state)
    requires DecideOnRun(now, t, run, WorkerExited(claimant), cleanupId) == Decided(d)
    ensures d.run.Some? && d.run.value.state.Lost?
    ensures RetainsPhysicalClaim(d.run.value)
            <==> run.pipeline == Codex || (run.pipeline == Goose && run.params.providerAuth == Some(Codex))
    ensures !RetainsPhysicalClaim(d.run.value) ==> d.run.value.queue.value.state.Retired?
  {
    ExitCases(now, t, run, claimant, DecideCommand(now, t, run, WorkerExited(claimant)).decision);
  }

  /** The exit of an already settled worker retires its claim, or, while cleanup is open,
      is remembered so that finishing the cleanup retires it. */
  lemma SettledExitRetires(now: int, later: int, t: Task, run: Run, claimant: Claimant, d: Decision)
    requires Held(t, run, now) && !IsLive(run.state) && IsClaimed(run)
    requires ExecutorExitedAndRetry(now, t, run, claimant) == Decided(d)
    ensures d.run.Some? && d.run.value.state == run.state
    ensures if run.credentialOperation.None? then !IsClaimed(d.run.value)
            else run.credentialOperation.value.kind.Cleanup? && run.credentialOperation.value.mutation.None? ==>
                   var op := run.credentialOperation.value;
                   var o := ChangeCredentialOperation(later, t, d.run.value, op.id, op.claimFingerprint,
                                                      Finish(false, Some(op.mutationSequence)));
                   o.Decided? && o.decision.run.Some? && !IsClaimed(o.decision.run.value)
                   && o.decision.run.value.credentialOperation.None?
  {
    assert GoodOperation(run);
    ExitCases(now, t, run, claimant, d);
  }

  /** An operation is reserved exactly by the claimant of a run that holds none: while it
      is live and in time, or at any time for cleanup. Until it is finished the run can be
      neither canceled, nor expired, nor lost by its executor, nor handed back. */
  lemma ReservationBlocksSettlement(now: int, later: int, t: Task, run: Run, fingerprint: string, id: string,
                                    kind: OperationKind, note: Option<Note>, claimant: Claimant)
    requires Held(t, run, now)
    ensures var o := ReserveCredentialOperation(now, t, run, fingerprint, id, kind);
            && (o.Decided? <==>
                  && (run.pipeline == Codex || (run.pipeline == Goose && run.params.providerAuth == Some(Codex)))
                  && IsClaimed(run) && run.queue.value.tokenHash == Some(fingerprint) && run.credentialOperation.None?
                  && (kind.Cleanup? || (IsLive(run.state) && !RecoveryDeadlineElapsed(run, now))))
            && (o.Decided? && IsLive(run.state) ==>
                  o.decision.run.Some? && var held := o.decision.run.value;
                  && CancelRun(later, t, held, note, None).Refused? && ExpireLease(later, t, held).Refused?
                  && ExecutorExited(later, t, held, claimant).Refused?
                  && (forall runner, token :: !MayRelease(held, runner, token)))
  {
  }

  /** A stale close may cancel only an unclaimed run that predates it, and only while
      the issue it closed is still the task's. */
  lemma StaleCloseIsFenced(now: int, t: Task, run: Run, cmd: RunCommand)
    requires Held(t, run, now) && cmd.CancelUnclaimedBefore?
    ensures DecideCancelUnclaimed(now, t, run, cmd).Decided? <==>
              && IsLive(run.state) && !IsClaimed(run) && run.createdAt <= cmd.notAfter
              && (cmd.closedIssue.Some? ==>
                    t.issue.Some? && t.issue.value.closed && t.issue.value.updatedAt == cmd.closedIssue.value.updatedAt
                    && t.issue.value.source == cmd.closedIssue.value.source)
  {
    assert GoodOperation(run);
  }

  /** Fallback takes an available alternative if any authorized one is left, and falls
      back to waiting for an authorized one only when none is available. */
  lemma FallbackPrefersAvailable(run: Run, authorized: seq<Pipeline>, available: seq<Pipeline>, p: Pipeline)
    requires run.providerFallback.Some?
    requires p in Untried(run.providerFallback.value) && p != run.pipeline && p in authorized
    ensures var choice := FallbackChoice(run, authorized, available);
            && choice.Some? && choice.value in Untried(run.providerFallback.value) && choice.value in authorized
            && (p in available ==> choice.value in available)
  {
    var policy := run.providerFallback.value;
    var barred := policy.attemptedPipelines + [run.pipeline];
    var i :| 0 <= i < |policy.allowedPipelines| && policy.allowedPipelines[i] == p;
    assert p !in barred;
    FirstEligibleIsFirst(policy.allowedPipelines, barred, authorized, available);
    FirstEligibleIsFirst(policy.allowedPipelines, barred, authorized, authorized);
    assert p in available ==> EligibleAt(policy.allowedPipelines, barred, authorized, available, i);
    assert EligibleAt(policy.allowedPipelines, barred, authorized, authorized, i);
    MintSteps.SelectionIsUntried(run, authorized, available);
    MintSteps.SelectionIsUntried(run, authorized, authorized);
  }

  /** A withdrawn delivery lets go of the task: any request passes the delivery gate. */
  lemma WithdrawnLetsGo(now: int, t: Task, run: Run, observation: Observation, source: RequestSource, params: Params,
                        d: Decision)
    requires observation.Withdrawn? && DeliveryWaiting(t)
    requires AdvanceDelivery(now, t, run, observation, false) == Decided(d)
    ensures DeliveryAdmits(d.task, source, params) && d.run.Some? && d.run.value.delivery.None?
  {
  }

  // ------------------------------------------------------------- evidence and recording

  /** Confirming dispatch is idempotent, and accepted exactly for a live run. */
  lemma ConfirmIsIdempotent(now: int, later: int, t: Task, run: Run)
    requires Held(t, run, now)
    ensures ConfirmDispatch(now, t, run).Decided? <==> IsLive(run.state)
    ensures ConfirmDispatch(now, t, run).Decided? ==>
              var d := ConfirmDispatch(now, t, run).decision;
              d.run.Some? && ConfirmDispatch(later, d.task, d.run.value) == Decided(Decision(d.task, d.run, None, []))
  {
  }

  /** Only the claimant's fresh evidence counts: a startup observation is at most a minute
      old, at most five seconds ahead, newer than the last, and about the same Job. */
  lemma StartupEvidenceIsFresh(now: int, t: Task, run: Run, claimant: Claimant, jobUid: string, observedAt: int,
                               placed: bool)
    requires Held(t, run, now)
    ensures ObserveStartupPlacement(now, t, run, claimant, jobUid, observedAt, placed).Decided? <==>
              && IsLive(run.state) && OwnsClaim(run, claimant) && !RecoveryDeadlineElapsed(run, now)
              && run.queue.value.startupPlacement.Some?
              && (var last := run.queue.value.startupPlacement.value;
                  && last.observedAt < observedAt && (last.jobUid.Some? ==> last.jobUid == Some(jobUid)))
              && now - 60_000 <= observedAt <= now + 5_000
  {
  }

  /** So does a placement report's: at most thirty seconds old, never ahead, never older
      than the last. */
  lemma PlacementEvidenceIsFresh(now: int, t: Task, run: Run, claimant: Claimant, observedAt: int)
    requires Held(t, run, now)
    ensures ObservePlacement(now, t, run, claimant, observedAt).Decided? <==>
              && IsLive(run.state) && OwnsClaim(run, claimant) && !RecoveryDeadlineElapsed(run, now)
              && now - 30_000 <= observedAt <= now
              && (run.queue.value.placementObservedAt.Some? ==> run.queue.value.placementObservedAt.value <= observedAt)
  {
  }

  /** A report's handoff is written with its settlement: the run and the task carry the
      delivery that was reported, and no other run's. */
  lemma ReportBindsDelivery(now: int, t: Task, run: Run, cmd: RunCommand, d: Decision)
    requires Held(t, run, now) && run.credentialOperation.None?
    requires cmd.Reported? && cmd.delivery.Some? && (cmd.reportAuthority.None? || cmd.result.ok)
    requires DecideReport(now, t, run, cmd) == Decided(d)
    ensures cmd.result.ok && cmd.delivery.value.runId == run.runId
    ensures d.run.Some? && d.run.value.delivery == cmd.delivery && d.task.delivery == cmd.delivery
    ensures Emits(d.outbox, EntryId(PublishTriage, run.runId)) <==>
              && (cmd.publishTriage || run.triagePublication == Some(TriagePending))
              && RevisionKey(t.desiredRevision) == RevisionKey(run.sourceRevision)
  {
    var reporting := ReportingRun(run, cmd);
    ReportCases(now, t, reporting, cmd.reportFingerprint, cmd.result, d);
    ReportSettles(now, t, reporting, cmd.result);
  }
}
