/** Two laws the code keeps only under a condition: where it breaks, and exactly when. */
module Findings {
  import opened Model
  import opened Decide
  import opened Credential
  import opened Fallback
  import opened Orchestrator
  import opened Invariants
  import opened TouchSteps
  import opened CommandPlans
  import opened Deferral

  // ------------------------------------------------------- a fallback drops a retry

  /** Every dispatch a commit emits is for a run the commit writes. */
  ghost predicate DispatchesCommitted(d: Decision) {
    forall i | 0 <= i < |d.outbox| && d.outbox[i].entryId.effect.DispatchRun? ::
      CommitsRun(d, d.outbox[i].entryId.run)
  }

  ghost predicate CommitsRun(d: Decision, r: RunId) {
    (d.run.Some? && d.run.value.runId == r) || (d.additionalRun.Some? && d.additionalRun.value.runId == r)
  }

  /** The failed run is due both a retry of its revision and a fallback of its policy. */
  predicate OwedTwice(task: Task, run: Run, result: RunResult, authorized: seq<Pipeline>, available: seq<Pipeline>) {
    && task.closedAt.None?
    && run.sourceRevision.Some? && task.desiredRevision.Some?
    && run.sourceRevision.value.key == task.desiredRevision.value.key
    && Attempt(run) <= MAX_AUTO_RETRIES
    && !result.ok && (result.summary == Some(ProviderLimit) || result.summary == Some(ProviderCapacity))
    && FallbackChoice(run, authorized, available).Some?
  }

  /** What the settlement says about the two successors. */
  lemma SettlementOwes(now: int, t: Task, run: Run, result: RunResult, authorized: seq<Pipeline>,
                       available: seq<Pipeline>)
    requires t.activeRunId == Some(run.runId)
    ensures var s := ReportSettlement(now, t, run, result);
            var settled := SettledByReport(now, t, run, result);
            && s.run == Some(settled) && settled.runId == run.runId
            && s.task.runCount == t.runCount && s.task.task == t.task
            && (forall i | 0 <= i < |s.outbox| :: !s.outbox[i].entryId.effect.DispatchRun?)
            && (OwedTwice(t, run, result, authorized, available) <==>
                  AdvancesRevision(s.task, settled) && OpensProviderCooldown(settled)
                  && FallbackChoice(settled, authorized, available).Some?)
            && (OwedTwice(t, run, result, authorized, available) ==> !result.ok)
  {
  }

  lemma RetryDispatched(now: int, s: Decision)
    requires s.run.Some? && AdvancesRevision(s.task, s.run.value)
    requires forall i | 0 <= i < |s.outbox| :: !s.outbox[i].entryId.effect.DispatchRun?
    ensures var d := AdvanceSourceRevision(s, now);
            var retry := RunId(s.task.task, s.task.runCount + 1);
            && d.run == s.run && d.additionalRun.Some? && d.additionalRun.value.runId == retry
            && d.task.runCount == s.task.runCount + 1
            && |d.outbox| == |s.outbox| + 1 && d.outbox[|s.outbox|].entryId == EntryId(DispatchRun, retry)
            && (forall i | 0 <= i < |s.outbox| :: d.outbox[i] == s.outbox[i])
            && DispatchesCommitted(d)
  {
  }

  /** The successor replaces whatever run the settled decision had minted. */
  lemma FallbackReplaces(now: int, s: Decision, authorized: seq<Pipeline>, available: seq<Pipeline>, d: Decision)
    requires s.run.Some? && SettleProviderFallback(now, s, authorized, available) == Decided(d)
    requires OpensProviderCooldown(s.run.value) && FallbackChoice(s.run.value, authorized, available).Some?
    ensures var next := RunId(s.run.value.runId.task, s.task.runCount + 1);
            && d.run == s.run && d.additionalRun.Some? && d.additionalRun.value.runId == next
            && |d.outbox| == |s.outbox| + 1 && d.outbox[|s.outbox|].entryId == EntryId(DispatchRun, next)
            && (forall i | 0 <= i < |s.outbox| :: d.outbox[i] == s.outbox[i])
  {
  }

  /** A report that falls back commits every run it dispatches, exactly unless the run
      was owed a revision retry as well: then the retry's dispatch names no run. */
  lemma FallbackDropsRetry(now: int, t: Task, run: Run, fingerprint: Option<string>, result: RunResult,
                           authorized: seq<Pipeline>, available: seq<Pipeline>, d: Decision)
    requires ReportResultWithFallback(now, t, run, fingerprint, result, authorized, available) == Decided(d)
    requires run.credentialOperation.None? && run.runId.task == t.task && run.runId.n <= t.runCount
    ensures DispatchesCommitted(d) <==> !OwedTwice(t, run, result, authorized, available)
  {
    ReportFallbackCases(now, t, run, fingerprint, result, authorized, available, d);
    SettledDropsRetry(now, t, run, result, authorized, available, d);
  }

  /** A settled report, then its fallback. */
  lemma SettledDropsRetry(now: int, t: Task, run: Run, result: RunResult, authorized: seq<Pipeline>,
                          available: seq<Pipeline>, d: Decision)
    requires t.activeRunId == Some(run.runId) && run.runId.task == t.task && run.runId.n <= t.runCount
    requires SettledReport(now, t, run, result).run.Some?
    requires SettleProviderFallback(now, SettledReport(now, t, run, result), authorized, available) == Decided(d)
    ensures DispatchesCommitted(d) <==> !OwedTwice(t, run, result, authorized, available)
  {
    SettlementOwes(now, t, run, result, authorized, available);
    var s := ReportSettlement(now, t, run, result);
    if AdvancesRevision(s.task, s.run.value) && !(result.ok && run.delivery.Some?) {
      RetryDispatched(now, s);
      FallbackAfter(now, AdvanceSourceRevision(s, now), authorized, available, d);
    } else {
      FallbackAfter(now, s, authorized, available, d);
    }
  }

  lemma FallbackAfter(now: int, s: Decision, authorized: seq<Pipeline>, available: seq<Pipeline>, d: Decision)
    requires s.run.Some? && SettleProviderFallback(now, s, authorized, available) == Decided(d)
    requires DispatchesCommitted(s) && s.run.value.runId.n <= s.task.runCount
    requires s.additionalRun.Some? ==>
               && s.run.value.runId.n < s.additionalRun.value.runId.n == s.task.runCount
               && s.outbox != [] && s.outbox[|s.outbox| - 1].entryId
                                  == EntryId(DispatchRun, s.additionalRun.value.runId)
    requires s.additionalRun.None? ==> forall i | 0 <= i < |s.outbox| :: !s.outbox[i].entryId.effect.DispatchRun?
    ensures DispatchesCommitted(d) <==>
              !(s.additionalRun.Some? && OpensProviderCooldown(s.run.value)
                && FallbackChoice(s.run.value, authorized, available).Some?)
  {
    if OpensProviderCooldown(s.run.value) && FallbackChoice(s.run.value, authorized, available).Some? {
      FallbackReplaces(now, s, authorized, available, d);
      if s.additionalRun.Some? {
        assert !CommitsRun(d, d.outbox[|s.outbox| - 1].entryId.run);
      }
    }
  }

  /** The finish of a deferred report falls back likewise, on the same inputs. */
  lemma FinishDropsRetry(now: int, t: Task, run: Run, cmd: RunCommand, d: Decision)
    requires cmd.OperationFinished? && cmd.finishAuthority.Some? && run.credentialPendingResult.Some?
    requires DecideFinish(now, t, run, cmd) == Decided(d)
    requires run.runId.task == t.task && run.runId.n <= t.runCount
    ensures DispatchesCommitted(d) <==>
              !OwedTwice(t, run, run.credentialPendingResult.value.result, cmd.finishAuthority.value.authorized,
                         cmd.finishAuthority.value.available)
  {
    var result := run.credentialPendingResult.value.result;
    var authorized, available := cmd.finishAuthority.value.authorized, cmd.finishAuthority.value.available;
    var changed := ChangeCredentialOperation(now, t, run, cmd.finishId, cmd.finishFingerprint,
                                             Finish(cmd.restored, cmd.leaseRetiredAtSequence)).decision;
    FinishCases(now, t, run, cmd.finishId, cmd.finishFingerprint, cmd.restored, cmd.leaseRetiredAtSequence, changed);
    FinishActive(now, t, run, cmd, changed);
    SettledDropsRetry(now, t, Resumed(run, cmd.finishFingerprint, cmd.restored), result, authorized, available, d);
  }

  lemma FinishActive(now: int, t: Task, run: Run, cmd: RunCommand, d: Decision)
    requires cmd.OperationFinished? && run.credentialPendingResult.Some?
    requires ChangeCredentialOperation(now, t, run, cmd.finishId, cmd.finishFingerprint,
                                       Finish(cmd.restored, cmd.leaseRetiredAtSequence)) == Decided(d)
    ensures t.activeRunId == Some(run.runId)
  {
  }

  // --------------------------------------------------------------------- example values

  const SampleId: TaskId := Github("owner/repo", 7)
  const SampleRun: RunId := RunId(SampleId, 1)
  const SampleParams: Params := Params(None, None, None, None, None, None, None, map[])
  const SampleTask: Task :=
    Task(SampleId, None, Some(SampleRun), 1, 0, "work", None, None, None, None, None, 0)
  const LimitReport: RunResult := RunResult(false, Some(ProviderLimit), None, None, None, None)
  const SampleRevision: WorkRevision := WorkRevision("rev", "input", None)

  function SampleRunOf(pipeline: Pipeline): Run {
    Run(SampleRun, Running, pipeline, Normal, Raw("first"), Caller, SampleParams, None, None, None, None,
        None, None, None, None, None, None, None, RUN_LEASE_MS, None, [], 0, 0)
  }

  /** A limited revision run with a policy: its retry r2 is dispatched and never exists. */
  lemma DroppedRetryExample()
    ensures var t := SampleTask.(desiredRevision := Some(SampleRevision));
            var policy := FallbackPolicy("user", None, [Codex], [OtherPipeline("a")], SampleRun, None, None);
            var run := SampleRunOf(OtherPipeline("a")).(sourceRevision := Some(SampleRevision),
                                                        revisionAttempt := Some(1),
                                                        providerFallback := Some(policy));
            var o := ReportResultWithFallback(1, t, run, None, LimitReport, [Codex], [Codex]);
            && o.Decided?
            && o.decision.outbox[1].entryId == EntryId(DispatchRun, RunId(SampleId, 2))
            && !CommitsRun(o.decision, RunId(SampleId, 2))
            && CommitsRun(o.decision, RunId(SampleId, 3))
  {
    var t := SampleTask.(desiredRevision := Some(SampleRevision));
    var policy := FallbackPolicy("user", None, [Codex], [OtherPipeline("a")], SampleRun, None, None);
    var run := SampleRunOf(OtherPipeline("a")).(sourceRevision := Some(SampleRevision), revisionAttempt := Some(1),
                                                providerFallback := Some(policy));
    var s := ReportSettlement(1, t, run, LimitReport);
    assert |s.outbox| == 1;
    SettlementOwes(1, t, run, LimitReport, [Codex], [Codex]);
    assert FirstEligible([Codex], [OtherPipeline("a")] + [OtherPipeline("a")], [Codex], [Codex]) == Some(Codex);
    RetryDispatched(1, s);
    var d := AdvanceSourceRevision(s, 1);
    assert ReportResult(1, t, run, None, LimitReport) == Decided(d);
    var o := SettleProviderFallback(1, d, [Codex], [Codex]);
    assert o.Decided?;
    FallbackReplaces(1, d, [Codex], [Codex], o.decision);
  }

  // ------------------------------------------------------ a late report without a token

  /** A report without a token is accepted behind an operation after the lease ran
      out; the proven finish is then refused, so the report cannot settle. */
  lemma LateReportWithoutTokenStalls(result: RunResult)
    ensures var queue := RunQueue(Claimed, None, None, Some(0), Some(RUN_START_TIMEOUT_MS), None, Some(0), None,
                                  Some("runner"), Some("subject"), Some("hash"));
            var op := CredentialOperation("op", Renew, "hash", 0, 0, CREDENTIAL_RECOVERY_DELAY_MS, None);
            var run := SampleRunOf(Codex).(queue := Some(queue), credentialOperation := Some(op));
            var late := RUN_LEASE_MS + 1;
            var reported := ReportResult(late, SampleTask, run, None, result);
            && Held(SampleTask, run, late)
            && reported.Decided? && reported.decision.run.Some?
            && ChangeCredentialOperation(late, SampleTask, reported.decision.run.value, "op", "hash",
                                         Finish(false, Some(0)))
               == Refuse(StaleLease)
  {
  }
}
