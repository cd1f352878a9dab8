/** Every accepted command on a run is a lawful commit. */
module CommandPlans {
  import opened Model
  import opened Decide
  import opened Credential
  import opened Fallback
  import opened Delivery
  import opened Orchestrator
  import opened Ledgers
  import opened Invariants
  import opened Primitives
  import opened TouchSteps
  import opened MintSteps
  import opened Lawful

  /** A ledger and one of its runs, as the transaction reads them. */
  ghost predicate Reads(l: Ledger, r: RunId, now: int) {
    Inv(l, now) && l.task.Some? && r in l.runs
  }

  /** The commit is about run `r`: rewritten, or settled and succeeded. */
  ghost predicate Executes(l: Ledger, r: RunId, d: Decision, plan: Plan, now: int) {
    && (plan.TaskPlan? || ((plan.TouchPlan? || plan.FollowPlan?) && plan.run == r))
    && Follows(l, d, plan, now)
  }

  lemma ReadsHeld(l: Ledger, r: RunId, now: int)
    requires Reads(l, r, now)
    ensures Held(l.task.value, l.runs[r], now) && l.runs[r].runId == r
    ensures IsLive(l.runs[r].state) <==> Active(l, r)
  {
    assert RunLocked(l, r) && GoodRun(l.runs[r], now);
  }

  /** A settlement of a Codex run leaves its claim in place. */
  ghost predicate QueueKept(run: Run, d: Decision) {
    d.run.Some? && Settles(run, d.run.value) && UsesCodexCredentials(run) ==> d.run.value.queue == run.queue
  }

  /** No operation is open when the run settles, so its cleanup can be reserved. */
  ghost predicate ClaimKept(run: Run, d: Decision) {
    QueueKept(run, d) && (d.run.Some? && Settles(run, d.run.value) ==> run.credentialOperation.None?)
  }

  /** Two readings of one run that differ only in fields a touch may write. */
  ghost predicate Alias(run: Run, other: Run) {
    && SameIdentity(run, other) && other.events == run.events && other.state == run.state
    && other.result == run.result && other.queue == run.queue && other.leaseExpiresAt == run.leaseExpiresAt
  }

  /** `result` may settle the run: no mutation is outstanding and no other report is pending. */
  ghost predicate MaySettle(run: Run, result: RunResult) {
    && (run.credentialOperation.Some? ==> run.credentialOperation.value.mutation.None?)
    && (run.credentialPendingResult.Some? ==> result == run.credentialPendingResult.value.result)
  }

  lemma TouchesAlias(t: Task, run: Run, other: Run, d: Decision, now: int)
    requires Alias(run, other) && Touches(t, other, d, now)
    requires OperationMoves(run.credentialOperation, d.run.value.credentialOperation) && PendingMoves(run, d.run.value)
    ensures Touches(t, run, d, now)
  {
  }

  /** A settlement that keeps the binding and the desired revision. */
  lemma SettledByTouch(l: Ledger, r: RunId, touch: Decision, now: int)
    requires Reads(l, r, now) && Active(l, r)
    requires Touches(l.task.value, l.runs[r], touch, now) && Settles(l.runs[r], touch.run.value)
    requires touch.task.desiredRevision == l.task.value.desiredRevision
    requires touch.task.delivery == l.task.value.delivery && touch.task.closedAt.None?
    ensures var k := Commit(l, touch);
            Settled(l, k, r) && RunsInv(k, now) && k.task == Some(touch.task) && k.runs[r] == touch.run.value
  {
    var k := Commit(l, touch);
    assert RunLocked(l, r) && Indexed(l, r);
    TouchedLedger(l, k, r, touch, now);
    TouchRuns(l, k, r, touch, now);
  }

  // --------------------------------------------------------------------- reports

  lemma AdvancePlan(l: Ledger, r: RunId, touch: Decision, now: int) returns (plan: Plan)
    requires Reads(l, r, now) && Active(l, r)
    requires Touches(l.task.value, l.runs[r], touch, now) && Settles(l.runs[r], touch.run.value)
    requires touch.task.desiredRevision == l.task.value.desiredRevision
    requires touch.task.delivery == l.task.value.delivery && touch.task.closedAt.None?
    ensures Executes(l, r, AdvanceSourceRevision(touch, now), plan, now)
    ensures AdvanceSourceRevision(touch, now).run == touch.run
    ensures !AdvancesRevision(touch.task, touch.run.value) ==> plan == TouchPlan(r)
  {
    SettledByTouch(l, r, touch, now);
    plan := TouchPlan(r);
    if AdvancesRevision(touch.task, touch.run.value) {
      AdvanceMints(l, Commit(l, touch), r, now);
      plan := FollowedPlan(l, r, touch,
                           MintRun(ResetLossBudgets(touch.task), AdvanceInput(touch.task, touch.run.value, now)), now);
    }
  }

  lemma SettlementFacts(now: int, t: Task, run: Run, result: RunResult)
    requires IsLive(run.state) && t.activeRunId == Some(run.runId) && t.closedAt.None?
    ensures var d := ReportSettlement(now, t, run, result);
            && d.run == Some(SettledByReport(now, t, run, result))
            && Settles(run, d.run.value) && d.run.value.queue == run.queue
            && d.task.desiredRevision == t.desiredRevision && d.task.closedAt.None?
            && (!(result.ok && run.delivery.Some?) ==> d.task.delivery == t.delivery)
  {
  }

  /** The settlement of the active run, read as `run`. */
  lemma SettledReportPlan(l: Ledger, r: RunId, run: Run, now: int, result: RunResult) returns (plan: Plan)
    requires Reads(l, r, now) && Alias(l.runs[r], run) && Held(l.task.value, run, now)
    requires IsLive(run.state) && run.credentialOperation.None? && MaySettle(l.runs[r], result)
    ensures var d := SettledReport(now, l.task.value, run, result);
            Executes(l, r, d, plan, now) && QueueKept(l.runs[r], d)
    ensures run.sourceRevision.None? ==> plan == TouchPlan(r)
  {
    var t := l.task.value;
    var d := ReportSettlement(now, t, run, result);
    SettleTouches(now, t, run, result);
    SettlementFacts(now, t, run, result);
    TouchesAlias(t, l.runs[r], run, d, now);
    plan := TouchPlan(r);
    if !(result.ok && run.delivery.Some?) {
      plan := AdvancePlan(l, r, d, now);
    }
  }

  /** An accepted report either waits behind an open operation or settles. */
  lemma ReportCases(now: int, t: Task, run: Run, fingerprint: Option<string>, result: RunResult, d: Decision)
    requires ReportResult(now, t, run, fingerprint, result) == Decided(d)
    ensures IsLive(run.state)
    ensures if run.credentialOperation.Some? then d == Decision(t, Some(DeferredReport(now, run, result)), None, [])
            else d == SettledReport(now, t, run, result)
  {
  }

  /** An accepted report of the active run, read as `run`. */
  lemma ReportPlan(l: Ledger, r: RunId, run: Run, now: int, fingerprint: Option<string>, result: RunResult, d: Decision)
    returns (plan: Plan)
    requires Reads(l, r, now) && Alias(l.runs[r], run) && Held(l.task.value, run, now)
    requires run.credentialOperation == l.runs[r].credentialOperation
             && run.credentialPendingResult == l.runs[r].credentialPendingResult
    requires ReportResult(now, l.task.value, run, fingerprint, result) == Decided(d)
    ensures Executes(l, r, d, plan, now) && ClaimKept(l.runs[r], d)
  {
    ReportCases(now, l.task.value, run, fingerprint, result, d);
    if run.credentialOperation.Some? {
      DeferTouches(now, l.task.value, run, result);
      TouchesAlias(l.task.value, l.runs[r], run, d, now);
      plan := TouchPlan(r);
    } else {
      plan := SettledReportPlan(l, r, run, now, result);
    }
  }

  lemma FollowedPlan(l: Ledger, r: RunId, touch: Decision, mint: Decision, now: int) returns (plan: Plan)
    requires TouchThenMint(l, r, touch, mint, now)
    ensures Executes(l, r, Followed(touch, mint), plan, now) && plan == FollowPlan(r, touch, mint)
  {
    plan := FollowPlan(r, touch, mint);
  }

  lemma SuccessorMints(l: Ledger, r: RunId, touch: Decision, now: int, a: RequestArgs, pipeline: Pipeline,
                       reason: FallbackReason, failure: RunId)
    requires Reads(l, r, now) && Active(l, r)
    requires Touches(l.task.value, l.runs[r], touch, now) && Settles(l.runs[r], touch.run.value)
    requires touch.task.desiredRevision == l.task.value.desiredRevision
    requires touch.task.delivery == l.task.value.delivery && touch.task.closedAt.None?
    requires touch.run.value.providerFallback.Some? && pipeline in Untried(touch.run.value.providerFallback.value)
    requires a == SuccessorArgs(now, touch.run.value, pipeline, reason, failure)
    ensures var next := RequestRun(a, Some(touch.task), None);
            next.Decided? && TouchThenMint(l, r, touch, next.decision, now)
  {
    SettledByTouch(l, r, touch, now);
    FallbackMints(l, Commit(l, touch), r, pipeline, reason, failure, now);
  }

  /** A settlement followed by its fallback successor, which is never refused. */
  lemma SuccessorPlan(l: Ledger, r: RunId, touch: Decision, now: int, pipeline: Pipeline, reason: FallbackReason,
                      failure: RunId)
    returns (plan: Plan)
    requires Reads(l, r, now) && Active(l, r)
    requires Touches(l.task.value, l.runs[r], touch, now) && Settles(l.runs[r], touch.run.value)
    requires touch.task.desiredRevision == l.task.value.desiredRevision
    requires touch.task.delivery == l.task.value.delivery && touch.task.closedAt.None?
    requires touch.run.value.providerFallback.Some? && pipeline in Untried(touch.run.value.providerFallback.value)
    ensures var o := Successor(now, touch, pipeline, reason, failure);
            o.Decided? && Executes(l, r, o.decision, plan, now) && o.decision.run == touch.run
  {
    var a := SuccessorArgs(now, touch.run.value, pipeline, reason, failure);
    SuccessorMints(l, r, touch, now, a, pipeline, reason, failure);
    plan := FollowedPlan(l, r, touch, RequestRun(a, Some(touch.task), None).decision, now);
  }

  lemma FallbackCases(now: int, d: Decision, authorized: seq<Pipeline>, available: seq<Pipeline>)
    requires d.run.Some?
    ensures var choice := FallbackChoice(d.run.value, authorized, available);
            if OpensProviderCooldown(d.run.value) && choice.Some?
            then d.run.value.providerFallback.Some? && choice.value in Untried(d.run.value.providerFallback.value)
                 && SettleProviderFallback(now, d, authorized, available)
                    == Successor(now, d, choice.value, LimitReported, d.run.value.runId)
            else SettleProviderFallback(now, d, authorized, available) == Decided(d)
  {
    SelectionIsUntried(d.run.value, authorized, available);
    SelectionIsUntried(d.run.value, authorized, authorized);
  }

  /** A settled limit falls back, when its policy has an alternative left. */
  lemma FallbackPlan(l: Ledger, r: RunId, d: Decision, now: int, authorized: seq<Pipeline>, available: seq<Pipeline>)
    returns (plan: Plan)
    requires Reads(l, r, now) && Active(l, r)
    requires Touches(l.task.value, l.runs[r], d, now) && Settles(l.runs[r], d.run.value)
    requires d.task.desiredRevision == l.task.value.desiredRevision
    requires d.task.delivery == l.task.value.delivery && d.task.closedAt.None?
    ensures var o := SettleProviderFallback(now, d, authorized, available);
            o.Decided? && Executes(l, r, o.decision, plan, now) && o.decision.run == d.run
  {
    FallbackCases(now, d, authorized, available);
    var choice := FallbackChoice(d.run.value, authorized, available);
    plan := TouchPlan(r);
    if OpensProviderCooldown(d.run.value) && choice.Some? {
      plan := SuccessorPlan(l, r, d, now, choice.value, LimitReported, d.run.value.runId);
    }
  }

  /** A policy and a source revision exclude each other, so at most one successor is due. */
  lemma ReportFallbackPlan(l: Ledger, r: RunId, run: Run, now: int, result: RunResult,
                           authorized: seq<Pipeline>, available: seq<Pipeline>) returns (plan: Plan)
    requires Reads(l, r, now) && Alias(l.runs[r], run) && Held(l.task.value, run, now)
    requires IsLive(run.state) && run.credentialOperation.None? && MaySettle(l.runs[r], result)
    ensures var d := SettledReport(now, l.task.value, run, result);
            var o := SettleProviderFallback(now, d, authorized, available);
            d.run.Some? && o.Decided? && Executes(l, r, o.decision, plan, now) && QueueKept(l.runs[r], o.decision)
  {
    var t := l.task.value;
    var d := SettledReport(now, t, run, result);
    plan := SettledReportPlan(l, r, run, now, result);
    SettlementFacts(now, t, run, result);
    var settled := SettledByReport(now, t, run, result);
    assert d.run == Some(settled);
    if OpensProviderCooldown(settled) && FallbackChoice(settled, authorized, available).Some? {
      assert run.providerFallback.Some? && run.sourceRevision.None?;
      plan := FallbackPlan(l, r, d, now, authorized, available);
    }
  }

  lemma ReportFallbackCases(now: int, t: Task, run: Run, fingerprint: Option<string>, result: RunResult,
                            authorized: seq<Pipeline>, available: seq<Pipeline>, d: Decision)
    requires ReportResultWithFallback(now, t, run, fingerprint, result, authorized, available) == Decided(d)
    ensures if run.credentialOperation.Some? then ReportResult(now, t, run, fingerprint, result) == Decided(d)
            else IsLive(run.state)
                 && SettleProviderFallback(now, SettledReport(now, t, run, result), authorized, available) == Decided(d)
  {
    var settled := ReportResult(now, t, run, fingerprint, result).decision;
    ReportCases(now, t, run, fingerprint, result, settled);
  }

  lemma ReportWithFallbackPlan(l: Ledger, r: RunId, now: int, fingerprint: Option<string>, result: RunResult,
                               authorized: seq<Pipeline>, available: seq<Pipeline>, d: Decision) returns (plan: Plan)
    requires Reads(l, r, now)
    requires ReportResultWithFallback(now, l.task.value, l.runs[r], fingerprint, result, authorized, available)
          == Decided(d)
    ensures Executes(l, r, d, plan, now) && ClaimKept(l.runs[r], d)
  {
    ReadsHeld(l, r, now);
    ReportFallbackCases(now, l.task.value, l.runs[r], fingerprint, result, authorized, available, d);
    if l.runs[r].credentialOperation.Some? {
      plan := ReportPlan(l, r, l.runs[r], now, fingerprint, result, d);
    } else {
      plan := ReportFallbackPlan(l, r, l.runs[r], now, result, authorized, available);
    }
  }

  lemma ReportingHeld(t: Task, run: Run, cmd: RunCommand, now: int)
    requires Held(t, run, now) && cmd.Reported? && (cmd.delivery.Some? ==> cmd.delivery.value.runId == run.runId)
    ensures Held(t, ReportingRun(run, cmd), now) && Alias(run, ReportingRun(run, cmd))
  {
  }

  lemma ReportCommandPlan(l: Ledger, r: RunId, now: int, cmd: RunCommand, d: Decision) returns (plan: Plan)
    requires Reads(l, r, now) && cmd.Reported? && DecideReport(now, l.task.value, l.runs[r], cmd) == Decided(d)
    ensures Executes(l, r, d, plan, now) && ClaimKept(l.runs[r], d)
  {
    ReadsHeld(l, r, now);
    if cmd.reportAuthority.Some? && !cmd.result.ok {
      plan := ReportWithFallbackPlan(l, r, now, cmd.reportFingerprint, cmd.result,
                                     cmd.reportAuthority.value.authorized, cmd.reportAuthority.value.available, d);
    } else {
      ReportingHeld(l.task.value, l.runs[r], cmd, now);
      plan := ReportPlan(l, r, ReportingRun(l.runs[r], cmd), now, cmd.reportFingerprint, cmd.result, d);
    }
  }

  // ------------------------------------------------------------------ credential IO

  /** Settling a deferred report forgets that it was pending. */
  function Resumed(run: Run, fingerprint: string, restored: bool): Run {
    FinishedOperation(run, fingerprint, restored).(credentialPendingResult := None)
  }

  lemma ResumedHeld(t: Task, run: Run, fingerprint: string, restored: bool, now: int)
    requires Held(t, run, now) && run.credentialPendingResult.Some?
    ensures Held(t, Resumed(run, fingerprint, restored), now) && Alias(run, Resumed(run, fingerprint, restored))
  {
  }

  lemma ResumedSettles(now: int, t: Task, run: Run, result: RunResult)
    ensures SettledReport(now, t, run, result) == SettledReport(now, t, run.(credentialPendingResult := None), result)
  {
  }

  /** Finishing with a deferred report settles exactly that report. */
  lemma FinishCases(now: int, t: Task, run: Run, id: string, fingerprint: string, restored: bool, sequence: Option<nat>,
                    d: Decision)
    requires run.credentialPendingResult.Some?
    requires ChangeCredentialOperation(now, t, run, id, fingerprint, Finish(restored, sequence)) == Decided(d)
    ensures IsLive(run.state) && MaySettle(run, run.credentialPendingResult.value.result)
    ensures d == SettledReport(now, t, Resumed(run, fingerprint, restored), run.credentialPendingResult.value.result)
  {
    var next := FinishedOperation(run, fingerprint, restored);
    var pending := run.credentialPendingResult.value;
    ReportCases(now, t, next, Some(pending.claimFingerprint), pending.result, d);
    ResumedSettles(now, t, next, pending.result);
  }

  lemma ChangePlan(l: Ledger, r: RunId, now: int, id: string, fingerprint: string, change: Change, d: Decision)
    returns (plan: Plan)
    requires Reads(l, r, now)
    requires ChangeCredentialOperation(now, l.task.value, l.runs[r], id, fingerprint, change) == Decided(d)
    ensures Executes(l, r, d, plan, now)
  {
    ReadsHeld(l, r, now);
    if change.Finish? && l.runs[r].credentialPendingResult.Some? {
      FinishCases(now, l.task.value, l.runs[r], id, fingerprint, change.restored, change.leaseRetiredAtSequence, d);
      ResumedHeld(l.task.value, l.runs[r], fingerprint, change.restored, now);
      plan := SettledReportPlan(l, r, Resumed(l.runs[r], fingerprint, change.restored), now,
                                l.runs[r].credentialPendingResult.value.result);
    } else {
      if change.Finish? {
        FinishTouches(now, l.task.value, l.runs[r], id, fingerprint, change);
      } else {
        StepTouches(now, l.task.value, l.runs[r], id, fingerprint, change);
      }
      plan := TouchPlan(r);
    }
  }

  lemma FinishPlan(l: Ledger, r: RunId, now: int, cmd: RunCommand, d: Decision) returns (plan: Plan)
    requires Reads(l, r, now) && cmd.OperationFinished? && DecideFinish(now, l.task.value, l.runs[r], cmd) == Decided(d)
    ensures Executes(l, r, d, plan, now)
  {
    ReadsHeld(l, r, now);
    var change := Finish(cmd.restored, cmd.leaseRetiredAtSequence);
    var t, run := l.task.value, l.runs[r];
    var changed := ChangeCredentialOperation(now, t, run, cmd.finishId, cmd.finishFingerprint, change).decision;
    if l.runs[r].credentialPendingResult.Some? && cmd.finishAuthority.Some? {
      FinishCases(now, l.task.value, l.runs[r], cmd.finishId, cmd.finishFingerprint, cmd.restored,
                  cmd.leaseRetiredAtSequence, changed);
      ResumedHeld(l.task.value, l.runs[r], cmd.finishFingerprint, cmd.restored, now);
      plan := ReportFallbackPlan(l, r, Resumed(l.runs[r], cmd.finishFingerprint, cmd.restored), now,
                                 l.runs[r].credentialPendingResult.value.result,
                                 cmd.finishAuthority.value.authorized, cmd.finishAuthority.value.available);
    } else {
      plan := ChangePlan(l, r, now, cmd.finishId, cmd.finishFingerprint, change, changed);
    }
  }

  // ----------------------------------------------------------------------- losses

  lemma LossPlan(l: Ledger, r: RunId, now: int, actor: Actor) returns (plan: Plan)
    requires Reads(l, r, now) && Active(l, r) && l.runs[r].credentialOperation.None?
    ensures var d := RetryAfterLoss(SettleLost(now, l.task.value, l.runs[r], actor), now);
            Executes(l, r, d, plan, now) && ClaimKept(l.runs[r], d)
  {
    ReadsHeld(l, r, now);
    LossTouches(now, l.task.value, l.runs[r], actor);
    var touch := SettleLost(now, l.task.value, l.runs[r], actor);
    plan := TouchPlan(r);
    if !touch.run.value.pipeline.Goose? {
      if AdvancesRevision(touch.task, touch.run.value) {
        plan := AdvancePlan(l, r, touch, now);
      } else if RetriesLoss(touch.task, touch.run.value) {
        SettledByTouch(l, r, touch, now);
        LossRetryMints(l, Commit(l, touch), r, now);
        plan := FollowedPlan(l, r, touch, MintRun(touch.task, LossRetryInput(touch.run.value, now)), now);
      }
    }
  }

  lemma ExpiryPlan(l: Ledger, r: RunId, now: int) returns (plan: Plan)
    requires Reads(l, r, now) && ExpireLeaseAndRetry(now, l.task.value, l.runs[r]).Decided?
    ensures var d := ExpireLeaseAndRetry(now, l.task.value, l.runs[r]).decision;
            Executes(l, r, d, plan, now) && ClaimKept(l.runs[r], d)
  {
    ReadsHeld(l, r, now);
    plan := LossPlan(l, r, now, ByExpiry);
  }

  lemma ExitCases(now: int, t: Task, run: Run, claimant: Claimant, d: Decision)
    requires ExecutorExitedAndRetry(now, t, run, claimant) == Decided(d)
    ensures if IsLive(run.state)
            then run.credentialOperation.None? && d == RetryAfterLoss(SettleLost(now, t, run, ByExecutor), now)
            else RetireSettledClaim(now, t, run) == Decided(d)
  {
  }

  lemma ExitPlan(l: Ledger, r: RunId, now: int, claimant: Claimant, d: Decision) returns (plan: Plan)
    requires Reads(l, r, now) && ExecutorExitedAndRetry(now, l.task.value, l.runs[r], claimant) == Decided(d)
    ensures Executes(l, r, d, plan, now) && ClaimKept(l.runs[r], d)
  {
    ReadsHeld(l, r, now);
    ExitCases(now, l.task.value, l.runs[r], claimant, d);
    if IsLive(l.runs[r].state) {
      plan := LossPlan(l, r, now, ByExecutor);
    } else {
      RetireTouches(now, l.task.value, l.runs[r]);
      plan := TouchPlan(r);
    }
  }

  // ------------------------------------------------------ source, reroute, delivery

  lemma TouchesFrom(t: Task, changed: Task, run: Run, d: Decision, now: int)
    requires changed == t.(desiredRevision := None, sourceObservedAt := changed.sourceObservedAt,
                           updatedAt := changed.updatedAt)
    requires Touches(changed, run, d, now)
    ensures Touches(t, run, d, now)
  {
  }

  lemma InvalidateCases(now: int, t: Task, run: Run, observed: map<string, int>, d: Decision)
    requires InvalidateSourceRevision(now, t, run, observed) == Decided(d)
    ensures var changed := t.(desiredRevision := None, sourceObservedAt := Some(observed), updatedAt := now);
            || d == Decision(t, None, None, [])
            || d == Decision(changed, None, None, [])
            || (!IsClaimed(run) && CancelRun(now, changed, run, Some(SourceIneligible), None) == Decided(d))
            || d == Decision(changed, Some(run.(triagePublication := Some(TriageSuperseded), updatedAt := now)), None,
                             [])
  {
  }

  lemma TriageTouches(now: int, t: Task, run: Run)
    requires Held(t, run, now)
    ensures var superseded := run.(triagePublication := Some(TriageSuperseded), updatedAt := now);
            Touches(t, run, Decision(t, Some(superseded), None, []), now)
  {
  }

  lemma InvalidatePlan(l: Ledger, r: RunId, now: int, observed: map<string, int>, d: Decision) returns (plan: Plan)
    requires Reads(l, r, now) && InvalidateSourceRevision(now, l.task.value, l.runs[r], observed) == Decided(d)
    ensures Executes(l, r, d, plan, now) && ClaimKept(l.runs[r], d)
  {
    ReadsHeld(l, r, now);
    InvalidateCases(now, l.task.value, l.runs[r], observed, d);
    var changed := l.task.value.(desiredRevision := None, sourceObservedAt := Some(observed), updatedAt := now);
    plan := if d.run.None? then TaskPlan else TouchPlan(r);
    if d.run.Some? {
      assert Held(changed, l.runs[r], now);
      CancelTouches(now, changed, l.runs[r], Some(SourceIneligible), None);
      TriageTouches(now, changed, l.runs[r]);
      TouchesFrom(l.task.value, changed, l.runs[r], d, now);
    }
  }

  lemma ReroutePlan(l: Ledger, r: RunId, now: int, cooldown: Option<Cooldown>, authorized: seq<Pipeline>,
                    available: seq<Pipeline>, d: Decision) returns (plan: Plan)
    requires Reads(l, r, now)
    requires RerouteQueuedRun(now, l.task.value, l.runs[r], cooldown, authorized, available) == Decided(d)
    ensures Executes(l, r, d, plan, now)
  {
    ReadsHeld(l, r, now);
    var pipeline := SelectFallbackPipeline(l.runs[r], authorized, available).value;
    SelectionIsUntried(l.runs[r], authorized, available);
    var failure := cooldown.value.runId;
    RerouteTouches(now, l.task.value, l.runs[r], failure, pipeline);
    plan := SuccessorPlan(l, r, RerouteSettlement(now, l.task.value, l.runs[r], failure, pipeline), now, pipeline,
                          CoolingDown, failure);
  }

  lemma CorrectionCases(now: int, t: Task, run: Run, observation: Observation, authorized: bool, d: Decision)
    requires observation.Correction? && DeliveryWaiting(t)
    requires AdvanceDelivery(now, t, run, observation, authorized) == Decided(d)
    ensures t.closedAt.None? && t.activeRunId.None?
    ensures t.delivery.value.runId == run.runId && t.delivery.value.correctionRunId.None?
    ensures CorrectDelivery(now, t, run, observation.context) == Decided(d)
  {
  }

  lemma CorrectionPlan(l: Ledger, r: RunId, now: int, context: string, d: Decision) returns (plan: Plan)
    requires Reads(l, r, now) && DeliveryWaiting(l.task.value) && AwaitsCorrection(l, r)
    requires l.task.value.closedAt.None? && l.task.value.activeRunId.None?
    requires CorrectDelivery(now, l.task.value, l.runs[r], context) == Decided(d)
    ensures Executes(l, r, d, plan, now) && d.run == Some(l.runs[r])
  {
    CorrectionMints(l, r, context, now);
    plan := FollowSame(l, r, d, now);
  }

  /** A mint committed beside an unchanged run. */
  lemma FollowSame(l: Ledger, r: RunId, d: Decision, now: int) returns (plan: Plan)
    requires Reads(l, r, now) && d.run == Some(l.runs[r])
    requires Mints(l, Decision(d.task, d.additionalRun, None, d.outbox), now)
    ensures Executes(l, r, d, plan, now)
  {
    var same := Decision(l.task.value, Some(l.runs[r]), None, []);
    var mint := Decision(d.task, d.additionalRun, None, d.outbox);
    ReadsHeld(l, r, now);
    assert Indexed(l, r);
    SameTouches(l.task.value, l.runs[r], now);
    SameCommit(l, r, same, mint, now);
    assert [] + d.outbox == d.outbox;
    plan := FollowPlan(r, same, mint);
  }

  lemma DeliveryPlan(l: Ledger, r: RunId, now: int, observation: Observation, authorized: bool, d: Decision)
    returns (plan: Plan)
    requires Reads(l, r, now) && AdvanceDelivery(now, l.task.value, l.runs[r], observation, authorized) == Decided(d)
    ensures Executes(l, r, d, plan, now) && ClaimKept(l.runs[r], d)
  {
    if observation.Correction? && DeliveryWaiting(l.task.value) {
      ReadsHeld(l, r, now);
      CorrectionCases(now, l.task.value, l.runs[r], observation, authorized, d);
      plan := CorrectionPlan(l, r, now, observation.context, d);
    } else {
      ReadsHeld(l, r, now);
      if observation.Merged? {
        MergeTouches(now, l.task.value, l.runs[r], observation, authorized);
      } else {
        DeliveryTouches(now, l.task.value, l.runs[r], observation, authorized);
      }
      plan := TouchPlan(r);
    }
  }

  /** Rewriting a run with itself changes only the version. */
  lemma SameCommit(l: Ledger, r: RunId, same: Decision, mint: Decision, now: int)
    requires l.task.Some? && r in l.runs && l.runs[r].runId == r && Indexed(l, r)
    requires same == Decision(l.task.value, Some(l.runs[r]), None, [])
    requires Mints(l, mint, now)
    ensures Mints(Commit(l, same), mint, now)
  {
    assert Commit(l, same) == l.(revision := l.revision + 1);
  }

  // ------------------------------------------------------------------ all commands

  lemma CancelPlan(l: Ledger, r: RunId, now: int, note: Option<Note>, nativeTask: Option<string>, d: Decision)
    returns (plan: Plan)
    requires Reads(l, r, now) && CancelRun(now, l.task.value, l.runs[r], note, nativeTask) == Decided(d)
    ensures Executes(l, r, d, plan, now) && ClaimKept(l.runs[r], d)
  {
    ReadsHeld(l, r, now);
    CancelTouches(now, l.task.value, l.runs[r], note, nativeTask);
    plan := TouchPlan(r);
  }

  lemma ConfirmPlan(l: Ledger, r: RunId, now: int, d: Decision) returns (plan: Plan)
    requires Reads(l, r, now) && ConfirmDispatch(now, l.task.value, l.runs[r]) == Decided(d)
    ensures Executes(l, r, d, plan, now) && ClaimKept(l.runs[r], d)
  {
    ReadsHeld(l, r, now);
    plan := TouchPlan(r);
    ConfirmTouches(now, l.task.value, l.runs[r]);
  }

  lemma StartupPlan(l: Ledger, r: RunId, now: int, claimant: Claimant, jobUid: string, at: int, placed: bool,
                    d: Decision) returns (plan: Plan)
    requires Reads(l, r, now)
    requires ObserveStartupPlacement(now, l.task.value, l.runs[r], claimant, jobUid, at, placed) == Decided(d)
    ensures Executes(l, r, d, plan, now) && ClaimKept(l.runs[r], d)
  {
    ReadsHeld(l, r, now);
    plan := TouchPlan(r);
    StartupTouches(now, l.task.value, l.runs[r], claimant, jobUid, at, placed);
  }

  lemma PlacementPlan(l: Ledger, r: RunId, now: int, claimant: Claimant, at: int, d: Decision) returns (plan: Plan)
    requires Reads(l, r, now) && ObservePlacement(now, l.task.value, l.runs[r], claimant, at) == Decided(d)
    ensures Executes(l, r, d, plan, now) && ClaimKept(l.runs[r], d)
  {
    ReadsHeld(l, r, now);
    plan := TouchPlan(r);
    PlacementTouches(now, l.task.value, l.runs[r], claimant, at);
  }

  lemma RenewPlan(l: Ledger, r: RunId, now: int, fingerprint: Option<string>, started: bool, d: Decision)
    returns (plan: Plan)
    requires Reads(l, r, now) && RenewLease(now, l.task.value, l.runs[r], fingerprint, started) == Decided(d)
    ensures Executes(l, r, d, plan, now) && ClaimKept(l.runs[r], d)
  {
    ReadsHeld(l, r, now);
    plan := TouchPlan(r);
    RenewTouches(now, l.task.value, l.runs[r], fingerprint, started);
  }

  lemma ReservePlan(l: Ledger, r: RunId, now: int, fingerprint: string, id: string, kind: OperationKind, d: Decision)
    returns (plan: Plan)
    requires Reads(l, r, now)
    requires ReserveCredentialOperation(now, l.task.value, l.runs[r], fingerprint, id, kind) == Decided(d)
    ensures Executes(l, r, d, plan, now) && ClaimKept(l.runs[r], d)
  {
    ReadsHeld(l, r, now);
    plan := TouchPlan(r);
    ReserveTouches(now, l.task.value, l.runs[r], fingerprint, id, kind);
  }

  // Dispatch in groups: the command decides which plan applies.

  lemma ObservationPlan(l: Ledger, r: RunId, now: int, cmd: RunCommand, d: Decision) returns (plan: Plan)
    requires Reads(l, r, now) && DecideCommand(now, l.task.value, l.runs[r], cmd) == Decided(d)
    requires cmd.DispatchConfirmed? || cmd.StartupObserved? || cmd.PlacementObserved?
    ensures Executes(l, r, d, plan, now) && (ReservesCleanup(cmd) ==> ClaimKept(l.runs[r], d))
  {
    match cmd {
      case DispatchConfirmed => plan := ConfirmPlan(l, r, now, d);
      case StartupObserved(claimant, jobUid, at, placed) =>
        plan := StartupPlan(l, r, now, claimant, jobUid, at, placed, d);
      case PlacementObserved(claimant, at) => plan := PlacementPlan(l, r, now, claimant, at, d);
    }
  }

  lemma ClaimPlan(l: Ledger, r: RunId, now: int, cmd: RunCommand, d: Decision) returns (plan: Plan)
    requires Reads(l, r, now) && DecideCommand(now, l.task.value, l.runs[r], cmd) == Decided(d)
    requires cmd.Renewed? || cmd.OperationReserved?
    ensures Executes(l, r, d, plan, now) && (ReservesCleanup(cmd) ==> ClaimKept(l.runs[r], d))
  {
    match cmd {
      case Renewed(fingerprint, started) => plan := RenewPlan(l, r, now, fingerprint, started, d);
      case OperationReserved(fingerprint, id, kind) => plan := ReservePlan(l, r, now, fingerprint, id, kind, d);
    }
  }

  lemma OperationPlan(l: Ledger, r: RunId, now: int, cmd: RunCommand, d: Decision) returns (plan: Plan)
    requires Reads(l, r, now) && DecideCommand(now, l.task.value, l.runs[r], cmd) == Decided(d)
    requires cmd.OperationChanged? || cmd.OperationFinished?
    ensures Executes(l, r, d, plan, now) && (ReservesCleanup(cmd) ==> ClaimKept(l.runs[r], d))
  {
    match cmd {
      case OperationChanged(id, fingerprint, change) => plan := ChangePlan(l, r, now, id, fingerprint, change, d);
      case OperationFinished(_, _, _, _, _) => plan := FinishPlan(l, r, now, cmd, d);
    }
  }

  /** Both cancellations come down to one. */
  lemma CancellationCases(now: int, t: Task, run: Run, cmd: RunCommand, d: Decision)
    requires DecideCommand(now, t, run, cmd) == Decided(d) && (cmd.CancelRequested? || cmd.CancelUnclaimedBefore?)
    ensures var note := FreeText(if cmd.CancelRequested? then cmd.note else cmd.cutoffNote);
            CancelRun(now, t, run, note, if cmd.CancelRequested? then cmd.nativeTask else None) == Decided(d)
  {
  }

  lemma CancellationPlan(l: Ledger, r: RunId, now: int, cmd: RunCommand, d: Decision) returns (plan: Plan)
    requires Reads(l, r, now) && DecideCommand(now, l.task.value, l.runs[r], cmd) == Decided(d)
    requires cmd.CancelRequested? || cmd.CancelUnclaimedBefore?
    ensures Executes(l, r, d, plan, now) && (ReservesCleanup(cmd) ==> ClaimKept(l.runs[r], d))
  {
    CancellationCases(now, l.task.value, l.runs[r], cmd, d);
    plan := CancelPlan(l, r, now, FreeText(if cmd.CancelRequested? then cmd.note else cmd.cutoffNote),
                       if cmd.CancelRequested? then cmd.nativeTask else None, d);
  }

  lemma SettlementPlan(l: Ledger, r: RunId, now: int, cmd: RunCommand, d: Decision) returns (plan: Plan)
    requires Reads(l, r, now) && DecideCommand(now, l.task.value, l.runs[r], cmd) == Decided(d)
    requires cmd.Reported? || cmd.LeaseExpired? || cmd.WorkerExited?
    ensures Executes(l, r, d, plan, now) && (ReservesCleanup(cmd) ==> ClaimKept(l.runs[r], d))
  {
    match cmd {
      case Reported(_, _, _, _, _) => plan := ReportCommandPlan(l, r, now, cmd, d);
      case LeaseExpired => plan := ExpiryPlan(l, r, now);
      case WorkerExited(claimant) => plan := ExitPlan(l, r, now, claimant, d);
    }
  }

  lemma MovePlan(l: Ledger, r: RunId, now: int, cmd: RunCommand, d: Decision) returns (plan: Plan)
    requires Reads(l, r, now) && DecideCommand(now, l.task.value, l.runs[r], cmd) == Decided(d)
    requires cmd.SourceInvalidated? || cmd.QueuedRerouted?
    ensures Executes(l, r, d, plan, now) && (ReservesCleanup(cmd) ==> ClaimKept(l.runs[r], d))
  {
    match cmd {
      case SourceInvalidated(observed) => plan := InvalidatePlan(l, r, now, observed, d);
      case QueuedRerouted(cooldown, authority) =>
        plan := ReroutePlan(l, r, now, cooldown, authority.authorized, authority.available, d);
    }
  }

  lemma CommandPlan(l: Ledger, r: RunId, now: int, cmd: RunCommand, d: Decision) returns (plan: Plan)
    requires Reads(l, r, now) && DecideCommand(now, l.task.value, l.runs[r], cmd) == Decided(d)
    ensures Executes(l, r, d, plan, now) && (ReservesCleanup(cmd) ==> ClaimKept(l.runs[r], d))
  {
    if cmd.DispatchConfirmed? || cmd.StartupObserved? || cmd.PlacementObserved? {
      plan := ObservationPlan(l, r, now, cmd, d);
    } else if cmd.Renewed? || cmd.OperationReserved? {
      plan := ClaimPlan(l, r, now, cmd, d);
    } else if cmd.OperationChanged? || cmd.OperationFinished? {
      plan := OperationPlan(l, r, now, cmd, d);
    } else if cmd.CancelRequested? || cmd.CancelUnclaimedBefore? {
      plan := CancellationPlan(l, r, now, cmd, d);
    } else if cmd.SourceInvalidated? || cmd.QueuedRerouted? {
      plan := MovePlan(l, r, now, cmd, d);
    } else if cmd.DeliveryObserved? {
      plan := DeliveryPlan(l, r, now, cmd.observation, cmd.correctionAuthorized, d);
    } else {
      plan := SettlementPlan(l, r, now, cmd, d);
    }
  }

  // ---------------------------------------------------------------------- cleanup

  /** The reservation changes nothing a successor depends on. */
  lemma CleanupKeepsMint(l: Ledger, r: RunId, touch: Decision, cleaned: Decision, mint: Decision, now: int)
    requires TouchThenMint(l, r, touch, mint, now) && l.runs[r].runId == r
    requires Touches(l.task.value, l.runs[r], cleaned, now)
    requires cleaned == touch.(run := cleaned.run) && cleaned.run.value.state == touch.run.value.state
    ensures TouchThenMint(l, r, cleaned, mint, now)
  {
    var k, c := Commit(l, touch), Commit(l, cleaned);
    assert KeyOf(cleaned.run.value) == KeyOf(touch.run.value);
    assert c == k.(runs := k.runs[r := cleaned.run.value]);
    MintsUnder(k, c, r, mint, now);
  }

  lemma MintsUnder(k: Ledger, c: Ledger, r: RunId, mint: Decision, now: int)
    requires r in k.runs && r in c.runs && c == k.(runs := k.runs[r := c.runs[r]])
    requires c.runs[r].state == k.runs[r].state && SameIdentity(k.runs[r], c.runs[r])
    requires Mints(k, mint, now)
    ensures Mints(c, mint, now)
  {
    forall o | o in c.runs && SameRevision(c.runs[o], mint.run.value)
      ensures Attempt(c.runs[o]) < Attempt(mint.run.value)
    {
      assert SameRevision(k.runs[o], mint.run.value);
    }
  }

  /** The cleanup reservation is never refused. */
  lemma CleanupAccepted(t: Task, run: Run, d: Decision, touch: Decision, now: int, cleanupId: string)
    requires Held(t, run, now) && Touches(t, run, touch, now) && touch.run == d.run && touch.task.task == d.task.task
    requires LeavesCodexDebt(run, d) && ClaimKept(run, d)
    ensures var o := WithCleanup(run, Decided(d), cleanupId);
            && o.Decided? && o.decision == d.(run := o.decision.run) && o.decision.run.Some?
            && o.decision.run.value.state == d.run.value.state
            && Touches(t, run, touch.(run := o.decision.run), now)
  {
    CleanupTouches(t, run, touch, now, cleanupId);
  }

  /** With its cleanup reserved the commit stays lawful. */
  lemma CleanupPlan(l: Ledger, r: RunId, now: int, d: Decision, plan: Plan, cleanupId: string) returns (next: Plan)
    requires Reads(l, r, now) && Executes(l, r, d, plan, now) && ClaimKept(l.runs[r], d)
    ensures var o := WithCleanup(l.runs[r], Decided(d), cleanupId);
            o.Decided? && Executes(l, r, o.decision, next, now)
  {
    next := plan;
    ReadsHeld(l, r, now);
    if LeavesCodexDebt(l.runs[r], d) {
      var touch := if plan.TouchPlan? then d else plan.touch;
      CleanupAccepted(l.task.value, l.runs[r], d, touch, now, cleanupId);
      var cleaned := touch.(run := WithCleanup(l.runs[r], Decided(d), cleanupId).decision.run);
      if plan.TouchPlan? {
        next := TouchPlan(r);
      } else {
        CleanupKeepsMint(l, r, touch, cleaned, plan.mint, now);
        next := FollowPlan(r, cleaned, plan.mint);
      }
    }
  }

  /** Every accepted run transaction is lawful. */
  lemma RunOutcomePlan(l: Ledger, now: int, r: RunId, cmd: RunCommand, cleanupId: string) returns (plan: Plan)
    requires Inv(l, now) && RunOutcome(l, now, r, cmd, cleanupId).Decided?
    ensures r in l.runs && l.task.Some? && Executes(l, r, RunOutcome(l, now, r, cmd, cleanupId).decision, plan, now)
  {
    var o := DecideCommand(now, l.task.value, l.runs[r], cmd);
    plan := CommandPlan(l, r, now, cmd, o.decision);
    if ReservesCleanup(cmd) { plan := CleanupPlan(l, r, now, o.decision, plan, cleanupId); }
  }
}
