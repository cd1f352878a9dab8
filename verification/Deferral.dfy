/** A report accepted behind an open credential operation is a commitment: nothing
    replaces or drops it, and the proven finish settles it however late it comes. */
module Deferral {
  import opened Model
  import opened Decide
  import opened Credential
  import opened Fallback
  import opened Orchestrator
  import opened Ledgers
  import opened Invariants
  import opened Primitives
  import opened TouchSteps
  import opened CommandPlans
  import opened Machine
  import opened History
  import opened CredentialFence
  import Frames

  /** The deferred report was in time by the deadlines its run has now. */
  ghost predicate Admitted(run: Run) {
    && run.credentialPendingResult.Some?
    && !StartDeadlineElapsed(run, run.credentialPendingResult.value.requestedAt)
    && !RecoveryDeadlineElapsed(run, run.credentialPendingResult.value.requestedAt)
  }

  // ---------------------------------------------------------------------- acceptance

  /** A first deferred report is recorded as given, and is in time exactly when the
      recovery deadline had not passed; a token-authenticated one always is. */
  lemma DeferralRecorded(now: int, t: Task, run: Run, fingerprint: Option<string>, result: RunResult, d: Decision)
    requires run.credentialOperation.Some? && ReportResult(now, t, run, fingerprint, result) == Decided(d)
    ensures d == Decision(t, Some(DeferredReport(now, run, result)), None, [])
    ensures var after := DeferredReport(now, run, result);
            && SameReport(after.credentialPendingResult.value.result, result)
            && (fingerprint.Some? ==> Admitted(after))
            && (run.credentialPendingResult.None? ==>
                  && after.credentialPendingResult
                     == Some(PendingResult(run.credentialOperation.value.claimFingerprint, now, result))
                  && (Admitted(after) <==> !RecoveryDeadlineElapsed(run, now)))
  {
    ReportCases(now, t, run, fingerprint, result, d);
  }

  lemma ReportDefers(now: int, t: Task, run: Run, cmd: RunCommand, cleanupId: string, d: Decision)
    requires cmd.Reported? && run.credentialOperation.Some? && DecideOnRun(now, t, run, cmd, cleanupId) == Decided(d)
    ensures d.run.Some? && IsLive(d.run.value.state) && d.additionalRun.None?
    ensures d.run.value.credentialPendingResult.Some?
    ensures SameReport(d.run.value.credentialPendingResult.value.result, cmd.result)
    ensures cmd.reportFingerprint.Some? ==> Admitted(d.run.value)
  {
    var e := DecideCommand(now, t, run, cmd).decision;
    if cmd.reportAuthority.Some? && !cmd.result.ok {
      ReportFallbackCases(now, t, run, cmd.reportFingerprint, cmd.result, cmd.reportAuthority.value.authorized,
                          cmd.reportAuthority.value.available, e);
      ReportCases(now, t, run, cmd.reportFingerprint, cmd.result, e);
      DeferralRecorded(now, t, run, cmd.reportFingerprint, cmd.result, e);
    } else {
      ReportCases(now, t, ReportingRun(run, cmd), cmd.reportFingerprint, cmd.result, e);
      DeferralRecorded(now, t, ReportingRun(run, cmd), cmd.reportFingerprint, cmd.result, e);
    }
  }

  /** A token-authenticated report accepted while an operation is open is committed. */
  lemma AcceptedReportIsAdmitted(l: Ledger, now: int, r: RunId, cmd: RunCommand, cleanupId: string)
    requires Inv(l, now) && Open(l, r) && cmd.Reported? && cmd.reportFingerprint.Some?
    requires RunOutcome(l, now, r, cmd, cleanupId).Decided?
    ensures var k := TransactRun(l, now, r, cmd, cleanupId);
            && r in k.runs && IsLive(k.runs[r].state) && Admitted(k.runs[r])
            && SameReport(k.runs[r].credentialPendingResult.value.result, cmd.result)
  {
    var d := RunOutcome(l, now, r, cmd, cleanupId).decision;
    var plan := RunOutcomePlan(l, now, r, cmd, cleanupId);
    ReportDefers(now, l.task.value, l.runs[r], cmd, cleanupId, d);
    PlanWrites(l, r, d, plan, now);
  }

  // --------------------------------------------------------------------- commitment

  /** The report still waits, or it is what the run finished with. */
  ghost predicate Committed(pending: PendingResult, run: Run) {
    if IsLive(run.state) then run.credentialPendingResult == Some(pending) && Admitted(run)
    else run.state.Finished? && run.result.Some? && AsReported(pending.result, run.result.value)
  }

  /** Deadlines never move back within a claim, so a report in time stays in time. */
  lemma AdmittedMoves(a: Run, b: Run, now: int)
    requires GoodRun(a, now) && GoodRun(b, now) && RunMoves(a, b)
    requires Admitted(a) && IsLive(b.state)
    ensures Admitted(b)
  {
  }

  lemma CommittedMoves(pending: PendingResult, a: Run, b: Run, now: int)
    requires GoodRun(a, now) && GoodRun(b, now) && RunMoves(a, b) && Committed(pending, a)
    ensures Committed(pending, b)
  {
    if IsLive(b.state) { AdmittedMoves(a, b, now); }
  }

  /** Whatever happens next, the accepted report is kept or becomes the result. */
  lemma {:induction false} DeferredIsCommitment(l: Ledger, trace: seq<Tick>, clock: int, r: RunId,
                                                pending: PendingResult)
    requires Inv(l, clock) && Timely(l.id, clock, trace)
    requires r in l.runs && Committed(pending, l.runs[r])
    ensures r in Exec(l, trace).runs && Committed(pending, Exec(l, trace).runs[r])
    decreases |trace|
  {
    if trace != [] {
      var k, rest := Step(l, trace[0]), trace[1..];
      StepMoves(l, trace[0], clock);
      StepPreserves(l, trace[0], clock);
      InvLater(l, clock, trace[0].now);
      assert RunMoves(l.runs[r], k.runs[r]) && GoodRun(l.runs[r], trace[0].now) && GoodRun(k.runs[r], trace[0].now);
      CommittedMoves(pending, l.runs[r], k.runs[r], trace[0].now);
      DeferredIsCommitment(k, rest, trace[0].now, r, pending);
    }
  }

  // ---------------------------------------------------------------------- settlement

  /** The finish names the operation, owes no mutation and proves its lease retired. */
  ghost predicate ProvenFinish(run: Run, cmd: RunCommand) {
    && cmd.OperationFinished? && run.credentialOperation.Some?
    && (var op := run.credentialOperation.value;
        && cmd.finishId == op.id && cmd.finishFingerprint == op.claimFingerprint
        && op.mutation.None? && cmd.leaseRetiredAtSequence == Some(op.mutationSequence))
  }

  lemma FinishAdmits(now: int, t: Task, run: Run, cmd: RunCommand)
    requires Held(t, run, now) && run.credentialPendingResult.Some? && ProvenFinish(run, cmd)
    ensures ChangeCredentialOperation(now, t, run, cmd.finishId, cmd.finishFingerprint,
                                      Finish(cmd.restored, cmd.leaseRetiredAtSequence)).Decided?
            <==> Admitted(run)
  {
    var next := FinishedOperation(run, cmd.finishFingerprint, cmd.restored);
    var pending := run.credentialPendingResult.value;
    assert ReportRefusal(now, t, next, Some(pending.claimFingerprint), pending.result).None? <==> Admitted(run);
  }

  lemma FinishDecides(l: Ledger, now: int, r: RunId, cmd: RunCommand)
    requires Reads(l, r, now) && l.runs[r].credentialPendingResult.Some? && ProvenFinish(l.runs[r], cmd)
    ensures DecideFinish(now, l.task.value, l.runs[r], cmd).Decided? <==> Admitted(l.runs[r])
  {
    ReadsHeld(l, r, now);
    FinishAdmits(now, l.task.value, l.runs[r], cmd);
    if Admitted(l.runs[r]) && cmd.finishAuthority.Some? {
      var changed := ChangeCredentialOperation(now, l.task.value, l.runs[r], cmd.finishId, cmd.finishFingerprint,
                                               Finish(cmd.restored, cmd.leaseRetiredAtSequence)).decision;
      FinishCases(now, l.task.value, l.runs[r], cmd.finishId, cmd.finishFingerprint, cmd.restored,
                  cmd.leaseRetiredAtSequence, changed);
      ResumedHeld(l.task.value, l.runs[r], cmd.finishFingerprint, cmd.restored, now);
      var plan := ReportFallbackPlan(l, r, Resumed(l.runs[r], cmd.finishFingerprint, cmd.restored), now,
                                     l.runs[r].credentialPendingResult.value.result,
                                     cmd.finishAuthority.value.authorized, cmd.finishAuthority.value.available);
    }
  }

  /** A proven finish settles the deferred report at any time, exactly when the
      report was in time; the fallback that may follow is never refused. */
  lemma FinishSettlesDeferred(l: Ledger, now: int, r: RunId, cmd: RunCommand, cleanupId: string)
    requires Inv(l, now) && r in l.runs
    requires l.runs[r].credentialPendingResult.Some? && ProvenFinish(l.runs[r], cmd)
    ensures RunOutcome(l, now, r, cmd, cleanupId).Decided? <==> Admitted(l.runs[r])
    ensures var k := TransactRun(l, now, r, cmd, cleanupId);
            Admitted(l.runs[r]) ==>
              && r in k.runs && k.runs[r].state.Finished? && k.runs[r].result.Some?
              && AsReported(l.runs[r].credentialPendingResult.value.result, k.runs[r].result.value)
  {
    TaskExists(l, r, now);
    FinishDecides(l, now, r, cmd);
    if Admitted(l.runs[r]) { FinishFinishes(l, now, r, cmd, cleanupId); }
  }

  lemma FinishFinishes(l: Ledger, now: int, r: RunId, cmd: RunCommand, cleanupId: string)
    requires Inv(l, now) && r in l.runs && cmd.OperationFinished? && RunOutcome(l, now, r, cmd, cleanupId).Decided?
    requires l.runs[r].credentialPendingResult.Some?
    ensures var k := TransactRun(l, now, r, cmd, cleanupId);
            && r in k.runs && k.runs[r].state.Finished? && k.runs[r].result.Some?
            && AsReported(l.runs[r].credentialPendingResult.value.result, k.runs[r].result.value)
  {
    var d := RunOutcome(l, now, r, cmd, cleanupId).decision;
    var plan := RunOutcomePlan(l, now, r, cmd, cleanupId);
    FinishResult(now, l.task.value, l.runs[r], cmd, d);
    PlanWrites(l, r, d, plan, now);
  }

  lemma FinishResult(now: int, t: Task, run: Run, cmd: RunCommand, d: Decision)
    requires cmd.OperationFinished? && run.credentialPendingResult.Some? && DecideFinish(now, t, run, cmd) == Decided(d)
    ensures d.run.Some? && d.run.value.state.Finished? && d.run.value.result.Some?
    ensures AsReported(run.credentialPendingResult.value.result, d.run.value.result.value)
  {
    var changed := ChangeCredentialOperation(now, t, run, cmd.finishId, cmd.finishFingerprint,
                                             Finish(cmd.restored, cmd.leaseRetiredAtSequence)).decision;
    FinishCases(now, t, run, cmd.finishId, cmd.finishFingerprint, cmd.restored, cmd.leaseRetiredAtSequence, changed);
    if cmd.finishAuthority.Some? {
      Frames.FallbackFrame(now, changed, cmd.finishAuthority.value.authorized, cmd.finishAuthority.value.available, d);
    }
  }

  /** An accepted report, any history after it, then the proven finish: the run
      ends with that report. */
  lemma DeferredReportCompletes(l: Ledger, trace: seq<Tick>, clock: int, r: RunId, pending: PendingResult, now: int,
                                cmd: RunCommand, cleanupId: string)
    requires Inv(l, clock) && Timely(l.id, clock, trace) && ClockAfter(clock, trace) <= now
    requires r in l.runs && Committed(pending, l.runs[r])
    requires r in Exec(l, trace).runs && IsLive(Exec(l, trace).runs[r].state)
    requires ProvenFinish(Exec(l, trace).runs[r], cmd)
    ensures var k := TransactRun(Exec(l, trace), now, r, cmd, cleanupId);
            && r in k.runs && k.runs[r].state.Finished? && k.runs[r].result.Some?
            && AsReported(pending.result, k.runs[r].result.value)
  {
    ExecPreserves(l, trace, clock);
    DeferredIsCommitment(l, trace, clock, r, pending);
    InvLater(Exec(l, trace), ClockAfter(clock, trace), now);
    FinishSettlesDeferred(Exec(l, trace), now, r, cmd, cleanupId);
  }
}
