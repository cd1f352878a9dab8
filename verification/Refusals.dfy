/** Why requests, reports, cancellations and task writes are refused: each reason exactly
    when it applies. */
module Refusals {
  import opened Model
  import opened Decide
  import opened Orchestrator
  import opened Ledgers
  import opened Invariants
  import opened TouchSteps
  import opened RequestPlans
  import opened Machine
  import opened Admission
  import Reports

  /** The refusal gives this reason. */
  predicate Because(o: Outcome, reason: Reason) {
    o.Refused? && o.reason == reason
  }

  // -------------------------------------------------------------------------- requests

  /** The delivery that waits on the task is not this request's to touch. */
  predicate GateShut(t: Task, a: RequestArgs) {
    && t.delivery.Some? && t.delivery.value.state.Waiting?
    && !(a.params.mode == Some(Reply) && a.params.replyPrincipal.Some?)
    && !(a.requestSource != Caller && a.params.deliveryPredecessor == Some(t.delivery.value.runId))
  }

  /** Under a live run a request is a duplicate if it is that run's own, else the task is busy,
      and the run is shown either way. On an idle task it is refused only for a closed task, a
      delivery of others, or missing work; an issue of another source is an error. */
  lemma RequestRefusals(l: Ledger, clock: int, a: RequestArgs)
    requires Inv(l, clock)
    ensures var o := RequestRun(a, l.task, ActiveRun(l));
            if l.task.Some? && l.task.value.activeRunId.Some? then
              && o.Refused? && o.existingRun == Some(l.runs[l.task.value.activeRunId.value])
              && o.reason == (if o.existingRun.value.requestId == a.requestId
                                 && o.existingRun.value.requestSource == a.requestSource
                              then DuplicateRequest else TaskBusy)
            else
              && (o.Refused? ==> o.existingRun.None?)
              && (Because(o, TaskClosed) <==> l.task.Some? && l.task.value.closedAt.Some?)
              && (Because(o, TaskBusy) <==>
                    l.task.Some? && l.task.value.closedAt.None? && GateShut(l.task.value, a))
              && (Because(o, MissingWork) <==> l.task.None? && a.work.None?)
              && (o.Threw? <==> l.task.Some? && l.task.value.closedAt.None? && !GateShut(l.task.value, a)
                                && !SameSource(l.task, GivenIssue(a.issue)))
              && (o.Refused? ==> o.reason in {TaskClosed, TaskBusy, MissingWork})
  {
    ActiveIsLive(l, clock);
  }

  /** A request that is new is stopped before admission exactly by stored work it does not fit
      or another provider than it expects, as a mismatch, or by a provider it may not use; a
      repeated one shows its run only to a caller that may use that run's provider. */
  lemma GuardRefusals(now: int, input: RequestInput, state: RequestState)
    requires state.previousSourceRevision.None?
    ensures var o := DecideRequest(now, input, state);
            var pipeline := EffectivePipeline(input, state.task);
            var fits := && (state.task.Some? && input.isStoredWorkCompatible.Some? ==>
                              input.isStoredWorkCompatible.value(state.task.value))
                        && (input.expectedEffectivePipeline.Some? ==>
                              input.expectedEffectivePipeline.value == pipeline);
            var used := if state.previousRun.Some? then state.previousRun.value.pipeline else pipeline;
            var allowed := input.isPipelineAuthorized.Some? ==> input.isPipelineAuthorized.value(used);
            && (!fits ==> Because(o, WorkSpecMismatch) && o.existingRun.None?)
            && (fits && !allowed ==> Because(o, PipelineForbidden) && o.existingRun.None?)
            && (fits && allowed && state.previousRun.Some? ==> o == Refused(DuplicateRequest, state.previousRun))
  {
  }

  // --------------------------------------------------------------------------- reports

  /** A report is refused to a wrong token; once the run finished, or settled otherwise for
      its claimant, by showing it; if it differs from the one that waits; or if it is late. */
  lemma ReportRefusals(now: int, t: Task, run: Run, fingerprint: Option<string>, result: RunResult)
    requires Held(t, run, now)
    ensures var o := ReportResult(now, t, run, fingerprint, result);
            var owned := fingerprint.Some? ==> IsClaimed(run) && run.queue.value.tokenHash == fingerprint;
            var same := run.credentialPendingResult.Some? ==>
                          Reports.Repeated(run.credentialPendingResult.value.result, result);
            && !o.Threw?
            && (o.Refused? ==> o.reason in {NotClaimant, RunNotLive, CredentialOperationPending, StaleLease})
            && (Because(o, NotClaimant) <==> !owned)
            && (Because(o, RunNotLive) <==> owned && !IsLive(run.state))
            && (Because(o, CredentialOperationPending) <==> owned && IsLive(run.state) && !same)
            && (Because(o, StaleLease) <==>
                  && owned && IsLive(run.state) && same
                  && !Reports.InTime(run, fingerprint, Reports.CountsFrom(run, now)))
            && (o.Refused? ==> o.existingRun == if Because(o, RunNotLive) && (run.state.Finished? || fingerprint.Some?)
                                                then Some(run) else None)
  {
    assert GoodPending(run, now) && GoodOperation(run);
  }

  // --------------------------------------------------------------------- cancellations

  /** A cancellation is refused for a settled run, for one with external work open, and a
      native one for a task that is not native or is another. */
  lemma CancelRefusals(now: int, t: Task, run: Run, note: Option<Note>, native: Option<string>)
    requires Held(t, run, now)
    ensures var o := CancelRun(now, t, run, note, native);
            && !o.Threw? && (o.Refused? ==> o.existingRun.None?)
            && (o.Refused? ==> o.reason in {RunNotLive, CredentialOperationPending, NotNative, TaskBusy})
            && (Because(o, RunNotLive) <==> !IsLive(run.state))
            && (Because(o, CredentialOperationPending) <==> IsLive(run.state) && run.credentialOperation.Some?)
            && (IsLive(run.state) && run.credentialOperation.None? ==>
                  && (Because(o, NotNative) <==> native.Some? && t.task.Github?)
                  && (Because(o, TaskBusy) <==> native.Some? && t.task.Work? && t.task != Work(native.value)))
  {
  }

  /** A close of an older issue is refused first for an issue that moved on, then for a run
      that was claimed, then for one that is newer. */
  lemma CutoffRefusals(now: int, t: Task, run: Run, cmd: RunCommand)
    requires Held(t, run, now) && cmd.CancelUnclaimedBefore?
    ensures var o := DecideCancelUnclaimed(now, t, run, cmd);
            var stands := cmd.closedIssue.Some? ==>
                            && t.issue.Some? && t.issue.value.closed
                            && t.issue.value.updatedAt == cmd.closedIssue.value.updatedAt
                            && t.issue.value.source == cmd.closedIssue.value.source;
            && (Because(o, StaleIssueSource) <==> !stands)
            && (Because(o, RunAlreadyClaimed) <==> stands && IsClaimed(run))
            && (Because(o, RunNewerThanCutoff) <==> stands && !IsClaimed(run) && cmd.notAfter < run.createdAt)
  {
  }

  /** An exit is refused to anyone but the claimant, with its token while the run is live, and
      to the claimant for external work, for a claim retired already, and for a Codex run. */
  lemma ExitRefusals(now: int, t: Task, run: Run, claimant: Claimant)
    requires Held(t, run, now)
    ensures var o := ExecutorExitedAndRetry(now, t, run, claimant);
            var named := && run.queue.Some? && run.queue.value.claimedBySubject == Some(claimant.subject)
                         && run.queue.value.claimedBy == Some(claimant.runner)
                         && (claimant.claimFingerprint.Some? ==>
                               run.queue.value.tokenHash == claimant.claimFingerprint);
            var retired := run.queue.Some? && run.queue.value.state.Retired?;
            && (o.Refused? ==> o.reason in {NotClaimant, RunNotLive, CredentialOperationPending})
            && (Because(o, NotClaimant) <==>
                  !(if IsLive(run.state) then named && IsClaimed(run) && claimant.claimFingerprint.Some?
                    else named && (IsClaimed(run) || retired)))
            && (Because(o, RunNotLive) <==>
                  named && !IsLive(run.state) && (retired || (IsClaimed(run) && run.pipeline.Codex?)))
            && (Because(o, CredentialOperationPending) <==>
                  named && IsLive(run.state) && IsClaimed(run) && claimant.claimFingerprint.Some?
                  && run.credentialOperation.Some?)
  {
    assert GoodOperation(run);
  }

  // ----------------------------------------------------------------------- task writes

  /** A close or a rewrite of work is refused for an unknown task, a task that is not native, a
      live run, which is then shown, and a close also for a closed task. */
  lemma TaskRefusals(l: Ledger, clock: int, now: int, work: string)
    requires Inv(l, clock)
    ensures var close, update := TaskOutcome(l, now, Closed), TaskOutcome(l, now, WorkUpdated(work));
            && (Because(close, UnknownTask) <==> l.task.None?) && (Because(update, UnknownTask) <==> l.task.None?)
            && (Because(close, NotNative) <==> l.task.Some? && l.id.Github?)
            && (Because(update, NotNative) <==> l.task.Some? && l.id.Github?)
            && (Because(close, TaskClosed) <==> l.task.Some? && l.id.Work? && l.task.value.closedAt.Some?)
            && (Because(close, TaskBusy) <==> l.task.Some? && l.id.Work? && l.task.value.activeRunId.Some?)
            && (Because(update, TaskBusy) <==> l.task.Some? && l.id.Work? && l.task.value.activeRunId.Some?)
            && (Because(close, TaskBusy) ==> close.existingRun == ActiveRun(l))
            && (Because(update, TaskBusy) ==> update.existingRun == ActiveRun(l))
  {
    ActiveIsLive(l, clock);
  }
}
