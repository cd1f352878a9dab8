/** Reports, cancellations and reroutes: exactly which are accepted, and everything an
    accepted one writes. */
module Reports {
  import opened Model
  import opened Decide
  import opened Fallback
  import opened Orchestrator
  import opened Ledgers
  import opened Invariants
  import opened Primitives
  import opened TouchSteps
  import opened CommandPlans
  import opened Theorems
  import opened Lifecycle
  import opened Claims
  import CodexDebt
  import Frames
  import MintSteps
  import opened Outbox

  // ------------------------------------------------------------------------ acceptance

  /** The instant a report counts from: its first acceptance, behind an operation. */
  function CountsFrom(run: Run, now: int): int {
    if run.credentialPendingResult.Some? then run.credentialPendingResult.value.requestedAt else now
  }

  /** In time: before the recovery deadline with a token, past no missed start without. */
  predicate InTime(run: Run, fingerprint: Option<string>, at: int) {
    if fingerprint.Some? then !RecoveryDeadlineElapsed(run, at) else !MissedStart(run, at)
  }

  /** The same report, whatever people it asks to act. */
  predicate Repeated(first: RunResult, result: RunResult) {
    first == result.(humanNeededActions := first.humanNeededActions)
  }

  /** What a report must be like to be accepted. */
  ghost predicate Acceptable(run: Run, now: int, fingerprint: Option<string>, result: RunResult) {
    && IsLive(run.state)
    && (fingerprint.Some? ==> IsClaimed(run) && run.queue.value.tokenHash == fingerprint)
    && (run.credentialPendingResult.Some? ==> Repeated(run.credentialPendingResult.value.result, result))
    && InTime(run, fingerprint, CountsFrom(run, now))
  }

  /** A report is accepted exactly so, with a token or without, behind an open operation
      or not. */
  lemma ReportAcceptedExactly(now: int, t: Task, run: Run, fingerprint: Option<string>, result: RunResult)
    requires Held(t, run, now)
    ensures ReportResult(now, t, run, fingerprint, result).Decided? <==> Acceptable(run, now, fingerprint, result)
  {
    assert GoodPending(run, now) && GoodOperation(run);
  }

  /** Repeating a report that waits behind an operation keeps the first one, people it asks
      to act included. */
  lemma RepeatedReportKeepsFirst(now: int, t: Task, run: Run, fingerprint: Option<string>, result: RunResult)
    requires Held(t, run, now) && run.credentialPendingResult.Some?
    requires ReportResult(now, t, run, fingerprint, result).Decided?
    ensures ReportResult(now, t, run, fingerprint, result).decision
         == Decision(t, Some(run.(updatedAt := now)), None, [])
  {
    assert GoodPending(run, now);
  }

  /** The handoff a report brings is the run's own, and does not contradict an earlier one. */
  predicate Hands(run: Run, cmd: RunCommand)
    requires cmd.Reported?
  {
    cmd.delivery.Some? ==>
      && cmd.result.ok && cmd.delivery.value.runId == run.runId
      && (run.delivery.Some? ==> run.delivery.value.head == cmd.delivery.value.head)
  }

  /** With its handoff, fallback and cleanup, a report is accepted exactly as it would be
      alone, unless the handoff is wrong; a failure under a fallback authority has none. */
  lemma ReportCommandAccepted(l: Ledger, now: int, r: RunId, cmd: RunCommand, cleanupId: string)
    requires Reads(l, r, now) && cmd.Reported?
    ensures RunOutcome(l, now, r, cmd, cleanupId).Decided? <==>
              && Acceptable(l.runs[r], now, cmd.reportFingerprint, cmd.result)
              && (cmd.result.ok || cmd.reportAuthority.None? ==> Hands(l.runs[r], cmd))
  {
    var t, run := l.task.value, l.runs[r];
    ReadsHeld(l, r, now);
    ReportDecides(l, now, r, cmd);
    var o := DecideCommand(now, t, run, cmd);
    if o.Decided? { CodexDebt.CleanupNeverRefused(l, now, r, cmd, cleanupId, o.decision); }
  }

  lemma ReportDecides(l: Ledger, now: int, r: RunId, cmd: RunCommand)
    requires Reads(l, r, now) && cmd.Reported? && Held(l.task.value, l.runs[r], now)
    ensures DecideReport(now, l.task.value, l.runs[r], cmd).Decided? <==>
              && Acceptable(l.runs[r], now, cmd.reportFingerprint, cmd.result)
              && (cmd.result.ok || cmd.reportAuthority.None? ==> Hands(l.runs[r], cmd))
  {
    if cmd.reportAuthority.Some? && !cmd.result.ok {
      FailureDecides(l, now, r, cmd.reportFingerprint, cmd.result, cmd.reportAuthority.value);
    } else {
      HandoffDecides(now, l.task.value, l.runs[r], cmd);
    }
  }

  lemma FailureDecides(l: Ledger, now: int, r: RunId, fingerprint: Option<string>, result: RunResult,
                       authority: Authority)
    requires Reads(l, r, now) && Held(l.task.value, l.runs[r], now)
    ensures ReportResultWithFallback(now, l.task.value, l.runs[r], fingerprint, result, authority.authorized,
                                     authority.available).Decided?
            <==> Acceptable(l.runs[r], now, fingerprint, result)
  {
    ReportAcceptedExactly(now, l.task.value, l.runs[r], fingerprint, result);
    var o := ReportResult(now, l.task.value, l.runs[r], fingerprint, result);
    if o.Decided? {
      FallbackNeverRefused(l, now, r, fingerprint, result, authority.authorized, authority.available, o.decision);
    }
  }

  lemma HandoffDecides(now: int, t: Task, run: Run, cmd: RunCommand)
    requires Held(t, run, now) && cmd.Reported? && (cmd.reportAuthority.None? || cmd.result.ok)
    ensures DecideReport(now, t, run, cmd).Decided?
            <==> Acceptable(run, now, cmd.reportFingerprint, cmd.result) && Hands(run, cmd)
  {
    if Hands(run, cmd) {
      ReportingHeld(t, run, cmd, now);
      ReportAcceptedExactly(now, t, ReportingRun(run, cmd), cmd.reportFingerprint, cmd.result);
    }
  }

  // ------------------------------------------------------------------------ settlement

  /** All that a settled report writes besides the result and the effects: the run's other
      fields stand, and so do the task's. */
  lemma SettlementFrame(now: int, t: Task, run: Run, result: RunResult)
    requires Held(t, run, now) && IsLive(run.state) && run.credentialOperation.None?
    ensures var d := ReportSettlement(now, t, run, result);
            && d.run.Some? && d.additionalRun.None?
            && d.run.value == run.(state := Finished, result := d.run.value.result, updatedAt := now,
                                   triagePublication := d.run.value.triagePublication,
                                   events := run.events + [RunEvent(now, Finished, ByReport, None)])
            && d.run.value.triagePublication
               == (if run.triagePublication.Some? && RevisionKey(t.desiredRevision) != RevisionKey(run.sourceRevision)
                   then Some(TriageSuperseded) else run.triagePublication)
            && d.task == t.(activeRunId := None, consecutiveLost := 0, delivery := d.task.delivery, updatedAt := now)
  {
    assert GoodPending(run, now);
  }

  /** Every effect of a settlement is due at once, except the watch over a delivery: it is
      due exactly from a minute later. */
  lemma EffectsAreDue(now: int, t: Task, run: Run, result: RunResult, i: nat, at: int)
    requires i < |ReportSettlement(now, t, run, result).outbox|
    ensures var entry := ReportSettlement(now, t, run, result).outbox[i];
            Due(entry, at) <==> !entry.entryId.effect.MonitorDelivery? || now + MINUTES <= at
  {
  }

  /** The run has the handoff the report names, else the one it had, and triage to publish
      exactly if the report asks for it and succeeded, or was to already; overtaken, the
      triage is void. A failure under a fallback authority brings nothing. */
  ghost predicate RecordsHandoff(t: Task, run: Run, cmd: RunCommand, after: Run)
    requires cmd.Reported?
  {
    var publishes := cmd.publishTriage && cmd.result.ok;
    && after.delivery == (if (cmd.result.ok || cmd.reportAuthority.None?) && cmd.delivery.Some?
                          then cmd.delivery else run.delivery)
    && after.triagePublication
       == if !publishes && run.triagePublication.None? then None
          else if RevisionKey(t.desiredRevision) != RevisionKey(run.sourceRevision) then Some(TriageSuperseded)
          else if publishes then Some(TriagePending) else run.triagePublication
  }

  /** So every report that settles its run does. */
  lemma HandoffRecorded(now: int, t: Task, run: Run, cmd: RunCommand, cleanupId: string, d: Decision)
    requires Held(t, run, now) && cmd.Reported? && run.credentialOperation.None?
    requires DecideOnRun(now, t, run, cmd, cleanupId) == Decided(d)
    ensures d.run.Some? && RecordsHandoff(t, run, cmd, d.run.value)
  {
    var e := DecideCommand(now, t, run, cmd).decision;
    if cmd.reportAuthority.Some? && !cmd.result.ok {
      FailureRecords(now, t, run, cmd, e);
    } else {
      SuccessRecords(now, t, run, cmd, e);
    }
    Frames.CleanupFrame(run, e, cleanupId);
  }

  lemma FailureRecords(now: int, t: Task, run: Run, cmd: RunCommand, d: Decision)
    requires Held(t, run, now) && cmd.Reported? && run.credentialOperation.None?
    requires cmd.reportAuthority.Some? && !cmd.result.ok && DecideReport(now, t, run, cmd) == Decided(d)
    ensures d.run.Some? && RecordsHandoff(t, run, cmd, d.run.value)
  {
    var authority := cmd.reportAuthority.value;
    ReportFallbackCases(now, t, run, cmd.reportFingerprint, cmd.result, authority.authorized, authority.available, d);
    SettlementFrame(now, t, run, cmd.result);
    FallbackCases(now, SettledReport(now, t, run, cmd.result), authority.authorized, authority.available);
  }

  lemma SuccessRecords(now: int, t: Task, run: Run, cmd: RunCommand, d: Decision)
    requires Held(t, run, now) && cmd.Reported? && run.credentialOperation.None?
    requires (cmd.reportAuthority.None? || cmd.result.ok) && DecideReport(now, t, run, cmd) == Decided(d)
    ensures d.run.Some? && RecordsHandoff(t, run, cmd, d.run.value)
  {
    ReportCases(now, t, ReportingRun(run, cmd), cmd.reportFingerprint, cmd.result, d);
    ReportingHeld(t, run, cmd, now);
    SettlementFrame(now, t, ReportingRun(run, cmd), cmd.result);
  }

  // -------------------------------------------------------------------------- fallback

  /** A report is followed by a run on another provider exactly when it failed on a limit or
      for lack of capacity and its policy has an authorized alternative left; the successor
      says that this run hit the limit. */
  lemma FallbackFollowsExactly(now: int, t: Task, run: Run, fingerprint: Option<string>, result: RunResult,
                               authorized: seq<Pipeline>, available: seq<Pipeline>, d: Decision)
    requires Held(t, run, now) && run.credentialOperation.None? && run.sourceRevision.None?
    requires ReportResultWithFallback(now, t, run, fingerprint, result, authorized, available) == Decided(d)
    ensures d.additionalRun.Some? <==>
              && !result.ok && (result.summary == Some(ProviderLimit) || result.summary == Some(ProviderCapacity))
              && run.providerFallback.Some? && FallbackChoice(run, authorized, available).Some?
    ensures d.additionalRun.Some? ==>
              && FallbackChoice(run, authorized, available) == Some(d.additionalRun.value.pipeline)
              && d.additionalRun.value.providerFallback.Some?
              && d.additionalRun.value.providerFallback.value.trigger
                 == Some(FallbackTrigger(LimitReported, run.runId, run.pipeline))
              && d.task.activeRunId == Some(d.additionalRun.value.runId)
  {
    assert run.providerFallback.Some? ==> GoodPolicy(run.providerFallback.value, run.pipeline);
    ReportFallbackCases(now, t, run, fingerprint, result, authorized, available, d);
  }

  /** A reroute cancels the queued run, naming the cooldown that moved it, publishes no
      outcome for it, and mints its successor on the first alternative with room. */
  lemma RerouteWrites(now: int, t: Task, run: Run, cooldown: Cooldown, authority: Authority, cleanupId: string,
                      d: Decision)
    requires Held(t, run, now)
    requires DecideOnRun(now, t, run, QueuedRerouted(Some(cooldown), authority), cleanupId) == Decided(d)
    ensures var choice := SelectFallbackPipeline(run, authority.authorized, authority.available);
            && choice.Some? && d.run.Some? && d.additionalRun.Some?
            && var note := Some(CooldownReroute(cooldown.runId, choice.value));
            && d.run.value == run.(state := Canceled, updatedAt := now,
                                   events := run.events + [RunEvent(now, Canceled, ByProviderFallback, note)])
            && d.additionalRun.value.pipeline == choice.value && choice.value != run.pipeline
            && d.additionalRun.value.requestId == FallbackOf(run.runId)
            && d.additionalRun.value.runId.task == run.runId.task && d.additionalRun.value.runId.n == t.runCount + 1
            && d.additionalRun.value.providerFallback.Some?
            && d.additionalRun.value.providerFallback.value.fromRunId == Some(run.runId)
            && d.additionalRun.value.providerFallback.value.trigger
               == Some(FallbackTrigger(CoolingDown, cooldown.runId, run.pipeline))
            && d.outbox == [NewEntry(DispatchRun, d.additionalRun.value.runId, now)]
            && d.task.activeRunId == Some(d.additionalRun.value.runId)
            && d.task.consecutiveLost == t.consecutiveLost
  {
    assert run.providerFallback.Some? ==> GoodPolicy(run.providerFallback.value, run.pipeline);
    MintSteps.SelectionIsUntried(run, authority.authorized, authority.available);
  }

  // ---------------------------------------------------------------------- cancellation

  /** A cancellation writes the canceled run with its reason and its one outcome, and frees
      the task with its losses forgotten; only a native one closes it, at that instant. */
  lemma CancelWrites(now: int, t: Task, run: Run, note: Option<string>, native: Option<string>, cleanupId: string,
                     d: Decision)
    requires Held(t, run, now)
    requires DecideOnRun(now, t, run, CancelRequested(note, native), cleanupId) == Decided(d)
    ensures d.run.Some? && d.additionalRun.None? && d.outbox == [NewEntry(ReportOutcome, run.runId, now)]
    ensures var reason := if note.Some? then Some(FreeNote(note.value)) else None;
            d.run.value == run.(state := Canceled, updatedAt := now,
                                credentialOperation := d.run.value.credentialOperation,
                                events := run.events + [RunEvent(now, Canceled, ByOperator, reason)])
    ensures d.task == t.(activeRunId := None, consecutiveLost := 0, updatedAt := now,
                         closedAt := if native.Some? && DeliveryWaiting(t) then Some(now) else t.closedAt)
  {
  }
}
