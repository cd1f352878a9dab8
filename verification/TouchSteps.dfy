/** Each decision function either refuses or performs one of the primitives. */
module TouchSteps {
  import opened Model
  import opened Decide
  import opened Credential
  import opened Fallback
  import opened Delivery
  import opened Orchestrator
  import opened Ledgers
  import opened Invariants
  import opened Primitives

  /** What the invariant says of a task and one of its runs. */
  ghost predicate Held(t: Task, run: Run, now: int) {
    && t.task == run.runId.task
    && GoodRun(run, now)
    && (IsLive(run.state) <==> t.activeRunId == Some(run.runId))
    && (t.activeRunId.Some? ==> t.closedAt.None?)
  }

  lemma GoodRunLater(run: Run, clock: int, now: int)
    requires GoodRun(run, clock) && clock <= now
    ensures GoodRun(run, now)
  {
  }

  lemma ConfirmTouches(now: int, t: Task, run: Run)
    requires Held(t, run, now)
    ensures var o := ConfirmDispatch(now, t, run); o.Decided? ==> Touches(t, run, o.decision, now)
  {
  }

  lemma StartupTouches(now: int, t: Task, run: Run, claimant: Claimant, jobUid: string, observedAt: int, placed: bool)
    requires Held(t, run, now)
    ensures var o := ObserveStartupPlacement(now, t, run, claimant, jobUid, observedAt, placed);
            o.Decided? ==> Touches(t, run, o.decision, now)
  {
  }

  lemma PlacementTouches(now: int, t: Task, run: Run, claimant: Claimant, observedAt: int)
    requires Held(t, run, now)
    ensures var o := ObservePlacement(now, t, run, claimant, observedAt);
            o.Decided? ==> Touches(t, run, o.decision, now)
  {
  }

  lemma RenewTouches(now: int, t: Task, run: Run, fingerprint: Option<string>, started: bool)
    requires Held(t, run, now)
    ensures var o := RenewLease(now, t, run, fingerprint, started); o.Decided? ==> Touches(t, run, o.decision, now)
  {
  }

  lemma DeferTouches(now: int, t: Task, run: Run, result: RunResult)
    requires Held(t, run, now) && IsLive(run.state) && run.credentialOperation.Some?
    ensures Touches(t, run, Decision(t, Some(DeferredReport(now, run, result)), None, []), now)
  {
  }

  lemma SettlementEmits(now: int, t: Task, run: Run, result: RunResult)
    requires Held(t, run, now) && IsLive(run.state)
    ensures var d := ReportSettlement(now, t, run, result);
            && (forall i | 0 <= i < |d.outbox| :: EffectKept(t, d.task, d.outbox[i].entryId, run.runId, true))
            && Distinct(d.outbox) && Emits(d.outbox, EntryId(ReportOutcome, run.runId))
  {
    var d := ReportSettlement(now, t, run, result);
    assert d.outbox[0].entryId == EntryId(ReportOutcome, run.runId);
  }

  lemma SettleTouches(now: int, t: Task, run: Run, result: RunResult)
    requires Held(t, run, now) && IsLive(run.state) && run.credentialOperation.None?
    ensures Touches(t, run, ReportSettlement(now, t, run, result), now)
  {
    SettlementEmits(now, t, run, result);
  }

  lemma CancelTouches(now: int, t: Task, run: Run, note: Option<Note>, nativeTask: Option<string>)
    requires Held(t, run, now)
    ensures var o := CancelRun(now, t, run, note, nativeTask);
            o.Decided? ==> Touches(t, run, o.decision, now) && Settles(run, o.decision.run.value)
  {
    var o := CancelRun(now, t, run, note, nativeTask);
    if o.Decided? { assert o.decision.outbox[0].entryId == EntryId(ReportOutcome, run.runId); }
  }

  /** A handed-over run publishes no outcome of its own. */
  lemma HandoffTouches(now: int, t: Task, run: Run, pipeline: Pipeline)
    requires Held(t, run, now)
    ensures var o := CancelRun(now, t, run, Some(LabelHandoff(pipeline)), None);
            o.Decided? ==> Touches(t, run, o.decision.(outbox := []), now)
  {
    var o := CancelRun(now, t, run, Some(LabelHandoff(pipeline)), None);
    if o.Decided? { assert HandsOver(o.decision.run.value.events[|run.events|]); }
  }

  lemma LossTouches(now: int, t: Task, run: Run, actor: Actor)
    requires Held(t, run, now) && IsLive(run.state) && run.credentialOperation.None?
    ensures Touches(t, run, SettleLost(now, t, run, actor), now)
  {
    assert SettleLost(now, t, run, actor).outbox[0].entryId == EntryId(ReportOutcome, run.runId);
  }

  lemma RetireTouches(now: int, t: Task, run: Run)
    requires Held(t, run, now) && !IsLive(run.state)
    ensures var o := RetireSettledClaim(now, t, run); o.Decided? ==> Touches(t, run, o.decision, now)
  {
  }

  lemma ReserveTouches(now: int, t: Task, run: Run, fingerprint: string, id: string, kind: OperationKind)
    requires Held(t, run, now)
    ensures var o := ReserveCredentialOperation(now, t, run, fingerprint, id, kind);
            o.Decided? ==> Touches(t, run, o.decision, now)
  {
  }

  lemma PrepareTouches(now: int, t: Task, run: Run, id: string, fingerprint: string, change: Change)
    requires Held(t, run, now) && change.Prepare?
    ensures var o := ChangeCredentialOperation(now, t, run, id, fingerprint, change);
            o.Decided? ==> Touches(t, run, o.decision, now)
  {
  }

  lemma AcknowledgeTouches(now: int, t: Task, run: Run, id: string, fingerprint: string, change: Change)
    requires Held(t, run, now) && change.Acknowledge?
    ensures var o := ChangeCredentialOperation(now, t, run, id, fingerprint, change);
            o.Decided? ==> Touches(t, run, o.decision, now)
  {
  }

  lemma StepTouches(now: int, t: Task, run: Run, id: string, fingerprint: string, change: Change)
    requires Held(t, run, now) && !change.Finish?
    ensures var o := ChangeCredentialOperation(now, t, run, id, fingerprint, change);
            o.Decided? ==> Touches(t, run, o.decision, now)
  {
    match change {
      case Prepare(_) => PrepareTouches(now, t, run, id, fingerprint, change);
      case Acknowledge(_, _) => AcknowledgeTouches(now, t, run, id, fingerprint, change);
      case RetryRecovery =>
    }
  }

  lemma FinishTouches(now: int, t: Task, run: Run, id: string, fingerprint: string, change: Change)
    requires Held(t, run, now) && change.Finish? && run.credentialPendingResult.None?
    ensures var o := ChangeCredentialOperation(now, t, run, id, fingerprint, change);
            o.Decided? ==> Touches(t, run, o.decision, now)
  {
  }

  lemma RerouteTouches(now: int, t: Task, run: Run, failure: RunId, pipeline: Pipeline)
    requires Held(t, run, now) && IsLive(run.state) && !IsClaimed(run)
    ensures Touches(t, run, RerouteSettlement(now, t, run, failure, pipeline), now)
  {
    var d := RerouteSettlement(now, t, run, failure, pipeline);
    assert HandsOver(d.run.value.events[|run.events|]);
  }

  lemma MergeTouches(now: int, t: Task, run: Run, observation: Observation, authorized: bool)
    requires Held(t, run, now) && observation.Merged?
    ensures var o := AdvanceDelivery(now, t, run, observation, authorized);
            o.Decided? ==> Touches(t, run, o.decision, now)
  {
  }

  lemma DeliveryTouches(now: int, t: Task, run: Run, observation: Observation, authorized: bool)
    requires Held(t, run, now) && !(observation.Correction? && DeliveryWaiting(t)) && !observation.Merged?
    ensures var o := AdvanceDelivery(now, t, run, observation, authorized);
            o.Decided? ==> Touches(t, run, o.decision, now)
  {
  }

  /** An identity write is a touch. */
  lemma SameTouches(t: Task, run: Run, now: int)
    requires Held(t, run, now)
    ensures Touches(t, run, Decision(t, Some(run), None, []), now)
  {
  }

  lemma QueueTouches(now: int, t: Task, run: Run, queue: RunQueue)
    requires Held(t, run, now) && run.credentialOperation.None? && !queue.state.Claimed?
    ensures Touches(t, run, Decision(t, Some(run.(queue := Some(queue), updatedAt := now)), None, []), now)
  {
  }

  lemma ClaimTouches(now: int, t: Task, run: Run, claimedBy: string, subject: string, tokenHash: string, aware: bool)
    requires Held(t, run, now) && run.credentialOperation.None? && !IsClaimed(run)
    ensures var claimed := ClaimQueuedRun(run, now, claimedBy, subject, tokenHash, aware);
            Touches(t, run, Decision(t, Some(claimed), None, []), now)
  {
  }

  /** Cleanup of a settled Codex claim can always be reserved, and stays a touch. */
  lemma CleanupTouches(t: Task, run: Run, d: Decision, now: int, cleanupId: string)
    requires Held(t, run, now) && Touches(t, run, d, now)
    requires LeavesCodexDebt(run, d) && d.run.value.queue == run.queue && run.credentialOperation.None?
    ensures var o := ReserveCredentialOperation(d.run.value.updatedAt, d.task, d.run.value,
                                                run.queue.value.tokenHash.value, cleanupId, Cleanup);
            o.Decided? && o.decision.run.Some? && Touches(t, run, d.(run := o.decision.run), now)
  {
  }
}
