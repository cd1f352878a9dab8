/** Each way a run comes to be minted satisfies the minting primitive. */
module MintSteps {
  import opened Model
  import opened Decide
  import opened Fallback
  import opened Delivery
  import opened Ledgers
  import opened Invariants
  import opened Primitives

  ghost predicate Idle(l: Ledger) {
    l.task.Some? ==> l.task.value.activeRunId.None? && l.task.value.closedAt.None?
  }

  ghost predicate GoodFallbackInput(input: Option<FallbackInput>, pipeline: Pipeline) {
    match input
    case None => true
    case Some(Authorized(_, _, pipelines)) => Unique(pipelines)
    case Some(Carried(policy)) => GoodPolicy(policy, pipeline)
  }

  ghost predicate GoodMintInput(input: MintInput, now: int) {
    && input.now == now
    && GoodFallbackInput(input.providerFallback, input.pipeline)
    && (input.sourceRevision.Some? ==>
          input.providerFallback.None?
          && (input.revisionAttempt.Some? ==> 1 <= input.revisionAttempt.value <= MAX_AUTO_RETRIES + 1))
  }

  lemma MintedRunIsGood(t: Task, input: MintInput, now: int)
    requires GoodMintInput(input, now)
    ensures GoodRun(MintedRun(t, input), now)
  {
  }

  /** The task a run is minted from, and the key it is minted under. */
  ghost predicate MintBase(l: Ledger, t: Task, input: MintInput) {
    && Idle(l)
    && t.task == l.id && t.runCount == RunCount(l) && t.closedAt.None?
    && (l.task.Some? ==> IssueGrows(l.task.value, t))
    && t.delivery == (if l.task.Some? then l.task.value.delivery else None)
    && OwnsDelivery(t, input.params)
    && IssueAgrees(t, input.issue)
    && var k := RequestKey(l.id, input.requestSource, input.requestId);
       k !in l.requestRuns && SpentKey(l.(task := Some(t)), k)
  }

  lemma MintRunMints(l: Ledger, t: Task, input: MintInput, now: int)
    requires MintBase(l, t, input)
    requires GoodMintInput(input, now)
    requires FreshRevision(l, t, MintedRun(t, input))
    ensures Mints(l, MintRun(t, input), now)
  {
    MintedRunIsGood(t, input, now);
  }

  // ------------------------------------------------------------------- requests

  ghost predicate GoodArgs(a: RequestArgs, now: int) {
    && a.now == now
    && GoodFallbackInput(a.providerFallback, a.pipeline)
    && (a.sourceRevision.Some? ==> a.providerFallback.None?)
  }

  /** A request key that is new to the ledger and spends its predecessor. */
  ghost predicate NewRequest(l: Ledger, a: RequestArgs) {
    && a.taskId == l.id
    && RequestKey(l.id, a.requestSource, a.requestId) !in l.requestRuns
    && SpentKey(l, RequestKey(l.id, a.requestSource, a.requestId))
    && (a.sourceRevision.Some? ==>
          a.sourceRevision.value.key in l.sourceRevisions
          && forall r | r in l.runs :: !Carries(l.runs[r], a.sourceRevision.value.key))
  }

  /** An accepted request mints; the lock was free. */
  lemma RequestRunMints(l: Ledger, a: RequestArgs, now: int)
    requires l.task.Some? ==> l.task.value.activeRunId.None?
    requires NewRequest(l, a) && GoodArgs(a, now)
    ensures var o := RequestRun(a, l.task, None); o.Decided? ==> Mints(l, o.decision, now)
  {
    var o := RequestRun(a, l.task, None);
    if o.Decided? {
      var work := if l.task.Some? then l.task.value.work else a.work.value;
      var previous := if l.task.Some? then l.task.value.issue else None;
      var issue := NewestIssue(previous, GivenIssue(a.issue));
      var t := BaseTask(a, l.task, work, issue);
      var input := MintInput(a.now, a.requestId, a.requestSource, a.pipeline,
                             if a.priority.Some? then a.priority.value else Normal, a.params,
                             if a.issue.IssueGiven? then a.issue.issue else issue,
                             a.providerFallback, a.sourceRevision, None);
      assert o.decision == MintRun(t, input);
      RequestBase(l, a, t, input);
      MintRunMints(l, t, input, now);
    }
  }

  lemma RequestBase(l: Ledger, a: RequestArgs, t: Task, input: MintInput)
    requires l.task.Some? ==> l.task.value.activeRunId.None? && l.task.value.closedAt.None?
                              && DeliveryAdmits(l.task.value, a.requestSource, a.params)
    requires NewRequest(l, a)
    requires var previous := if l.task.Some? then l.task.value.issue else None;
             var issue := NewestIssue(previous, GivenIssue(a.issue));
             && !(previous.Some? && GivenIssue(a.issue).Some?
                   && previous.value.source != GivenIssue(a.issue).value.source)
             && t == BaseTask(a, l.task, t.work, issue)
             && input == MintInput(a.now, a.requestId, a.requestSource, a.pipeline, input.priority, a.params,
                                   if a.issue.IssueGiven? then a.issue.issue else issue,
                                   a.providerFallback, a.sourceRevision, None)
    ensures MintBase(l, t, input)
    ensures FreshRevision(l, t, MintedRun(t, input))
  {
  }

  // ------------------------------------------------------------ automatic successors

  /** What settling the live run `r` of `l` leaves behind for its successor. */
  ghost predicate Settled(l: Ledger, k: Ledger, r: RunId) {
    && r in l.runs && r in k.runs && l.task.Some? && k.task.Some?
    && Active(l, r) && Settles(l.runs[r], k.runs[r])
    && k.runs == l.runs[r := k.runs[r]] && RunKept(l.runs[r], k.runs[r])
    && k.id == l.id && k.requestRuns == l.requestRuns && k.sourceRevisions == l.sourceRevisions
    && TaskKept(l.task.value, k.task.value, true)
    && k.task.value.desiredRevision == l.task.value.desiredRevision
    && k.task.value.delivery == l.task.value.delivery
    && k.task.value.closedAt.None?
  }

  /** While a run was live its dependent keys were unused. */
  lemma FreshDependent(l: Ledger, k: Ledger, r: RunId)
    requires IndexInv(l) && Settled(l, k, r) && IsLive(l.runs[r].state)
    ensures RequestKey(l.id, AutoRetry, RetryOf(r)) !in k.requestRuns
    ensures RequestKey(l.id, ProviderFallback, FallbackOf(r)) !in k.requestRuns
  {
    var a, b := RequestKey(l.id, AutoRetry, RetryOf(r)), RequestKey(l.id, ProviderFallback, FallbackOf(r));
    assert a in l.requestRuns ==> GoodKey(l, a);
    assert b in l.requestRuns ==> GoodKey(l, b);
  }

  /** The next attempt of the settled run's own revision is new. */
  lemma FreshAttempt(l: Ledger, k: Ledger, r: RunId, m: Run)
    requires AttemptInv(l) && ReceiptInv(l) && Settled(l, k, r) && IsLive(l.runs[r].state)
    requires m.sourceRevision.Some? && Carries(l.runs[r], m.sourceRevision.value.key)
    requires Attempt(m) == Attempt(l.runs[r]) + 1
    ensures forall o | o in k.runs && SameRevision(k.runs[o], m) :: Attempt(k.runs[o]) < Attempt(m)
  {
    forall o | o in k.runs && SameRevision(k.runs[o], m) ensures Attempt(k.runs[o]) < Attempt(m) {
      if o != r { assert AttemptsOrdered(l.runs[r], l.runs[o]); }
    }
  }

  /** An automatic successor inherits what the live run was entitled to. */
  lemma SuccessorBase(l: Ledger, k: Ledger, r: RunId, t: Task, input: MintInput)
    requires MutexInv(l) && DeliveryInv(l) && Settled(l, k, r)
    requires t == k.task.value.(consecutiveLost := t.consecutiveLost)
    requires input.params == k.runs[r].params
    requires input.issue == k.runs[r].issue || input.issue == k.task.value.issue
    requires var x := RequestKey(k.id, input.requestSource, input.requestId);
             x !in k.requestRuns && SpentKey(k, x)
    ensures MintBase(k, t, input)
  {
    assert RunLocked(l, r);
  }

  lemma LossRetryMints(l: Ledger, k: Ledger, r: RunId, now: int)
    requires Inv(l, now) && RunsInv(k, now) && Settled(l, k, r)
    requires RetriesLoss(k.task.value, k.runs[r]) && !AdvancesRevision(k.task.value, k.runs[r])
    ensures Mints(k, MintRun(k.task.value, LossRetryInput(k.runs[r], now)), now)
  {
    var input := LossRetryInput(k.runs[r], now);
    LossRetryFresh(l, k, r, now);
    FreshDependent(l, k, r);
    SuccessorBase(l, k, r, k.task.value, input);
    MintRunMints(k, k.task.value, input, now);
  }

  lemma LossRetryFresh(l: Ledger, k: Ledger, r: RunId, now: int)
    requires r in k.runs && GoodRun(k.runs[r], now) && ReceiptInv(l) && AttemptInv(l) && Settled(l, k, r)
    requires RetriesLoss(k.task.value, k.runs[r]) && !AdvancesRevision(k.task.value, k.runs[r])
    ensures GoodMintInput(LossRetryInput(k.runs[r], now), now)
    ensures FreshRevision(k, k.task.value, MintedRun(k.task.value, LossRetryInput(k.runs[r], now)))
  {
    var m := MintedRun(k.task.value, LossRetryInput(k.runs[r], now));
    if m.sourceRevision.Some? { FreshAttempt(l, k, r, m); }
  }

  lemma AdvanceMints(l: Ledger, k: Ledger, r: RunId, now: int)
    requires Inv(l, now) && RunsInv(k, now) && Settled(l, k, r)
    requires AdvancesRevision(k.task.value, k.runs[r])
    ensures Mints(k, MintRun(ResetLossBudgets(k.task.value), AdvanceInput(k.task.value, k.runs[r], now)), now)
  {
    var t := ResetLossBudgets(k.task.value);
    var input := AdvanceInput(k.task.value, k.runs[r], now);
    AdvanceFresh(l, k, r, now);
    FreshDependent(l, k, r);
    SuccessorBase(l, k, r, t, input);
    MintRunMints(k, t, input, now);
  }

  lemma AdvanceFresh(l: Ledger, k: Ledger, r: RunId, now: int)
    requires r in k.runs && GoodRun(k.runs[r], now)
    requires ReceiptInv(l) && AttemptInv(l) && CoalesceInv(l) && Settled(l, k, r)
    requires AdvancesRevision(k.task.value, k.runs[r])
    ensures var input := AdvanceInput(k.task.value, k.runs[r], now);
            && GoodMintInput(input, now)
            && FreshRevision(k, ResetLossBudgets(k.task.value), MintedRun(ResetLossBudgets(k.task.value), input))
            && (IsSuperseded(k.task.value, k.runs[r]) ==> RequestKey(k.id, Caller, input.requestId) !in k.requestRuns)
  {
    var input := AdvanceInput(k.task.value, k.runs[r], now);
    var m := MintedRun(ResetLossBudgets(k.task.value), input);
    if IsSuperseded(k.task.value, k.runs[r]) {
      assert IsSuperseded(l.task.value, l.runs[r]);
      assert Unminted(l, k.task.value.desiredRevision.value.key);
      assert CallerKey(l, k.task.value.desiredRevision.value.key) == RequestKey(k.id, Caller, input.requestId);
      forall o | o in k.runs ensures !SameRevision(k.runs[o], m) {
        assert !Carries(l.runs[o], m.sourceRevision.value.key);
      }
    } else {
      FreshAttempt(l, k, r, m);
    }
  }

  // ------------------------------------------------------------- provider fallback

  lemma {:induction false} FirstEligibleIsEligible(allowed: seq<Pipeline>, barred: seq<Pipeline>,
                                                   authorized: seq<Pipeline>, available: seq<Pipeline>)
    ensures var p := FirstEligible(allowed, barred, authorized, available);
            p.Some? ==> p.value in allowed && p.value !in barred && p.value in authorized && p.value in available
  {
    if allowed != [] { FirstEligibleIsEligible(allowed[1..], barred, authorized, available); }
  }

  /** A selected alternative is allowed and was never attempted. */
  lemma SelectionIsUntried(run: Run, authorized: seq<Pipeline>, available: seq<Pipeline>)
    ensures var p := SelectFallbackPipeline(run, authorized, available);
            p.Some? ==> run.providerFallback.Some? && p.value in Untried(run.providerFallback.value)
                        && p.value != run.pipeline && p.value in authorized && p.value in available
  {
    if run.providerFallback.Some? {
      var policy := run.providerFallback.value;
      FirstEligibleIsEligible(policy.allowedPipelines, policy.attemptedPipelines + [run.pipeline], authorized,
                              available);
    }
  }

  lemma SuccessorPolicyIsGood(run: Run, pipeline: Pipeline, reason: FallbackReason, failure: RunId)
    requires run.providerFallback.Some? && GoodPolicy(run.providerFallback.value, run.pipeline)
    requires pipeline in Untried(run.providerFallback.value)
    ensures GoodPolicy(SuccessorPolicy(run, pipeline, reason, failure), pipeline)
  {
    var policy := run.providerFallback.value;
    var next := SuccessorPolicy(run, pipeline, reason, failure);
    assert next.attemptedPipelines[|policy.attemptedPipelines|] == pipeline;
  }

  /** The settled run's fallback key is unused, and its policy has room. */
  lemma FallbackIsNew(l: Ledger, k: Ledger, r: RunId, pipeline: Pipeline, reason: FallbackReason, failure: RunId,
                      now: int)
    requires MutexInv(l) && IndexInv(l) && RunsInv(k, now) && Settled(l, k, r)
    requires k.runs[r].providerFallback.Some? && pipeline in Untried(k.runs[r].providerFallback.value)
    ensures var a := SuccessorArgs(now, k.runs[r], pipeline, reason, failure); NewRequest(k, a) && GoodArgs(a, now)
  {
    assert GoodRun(k.runs[r], now) && RunLocked(l, r);
    SuccessorPolicyIsGood(k.runs[r], pipeline, reason, failure);
    FreshDependent(l, k, r);
  }

  /** The successor of a settled run mints, and is never refused. */
  lemma FallbackMints(l: Ledger, k: Ledger, r: RunId, pipeline: Pipeline, reason: FallbackReason, failure: RunId,
                      now: int)
    requires Inv(l, now) && RunsInv(k, now) && Settled(l, k, r)
    requires k.runs[r].providerFallback.Some? && pipeline in Untried(k.runs[r].providerFallback.value)
    ensures var o := RequestRun(SuccessorArgs(now, k.runs[r], pipeline, reason, failure), k.task, None);
            o.Decided? && Mints(k, o.decision, now)
  {
    var a := SuccessorArgs(now, k.runs[r], pipeline, reason, failure);
    FallbackIsNew(l, k, r, pipeline, reason, failure, now);
    SuccessorAdmitted(l, k, r, a);
    RequestRunMints(k, a, now);
  }

  lemma SuccessorAdmitted(l: Ledger, k: Ledger, r: RunId, a: RequestArgs)
    requires MutexInv(l) && DeliveryInv(l) && Settled(l, k, r)
    requires a.requestSource.ProviderFallback? && a.issue == IssueGiven(k.runs[r].issue)
    requires a.params == FreshParams(k.runs[r].params)
    ensures RequestRun(a, k.task, None).Decided?
  {
    assert RunLocked(l, r);
  }

  // ---------------------------------------------------------- delivery correction

  /** While its binding awaits a correction, the run's correction key is unused. */
  lemma CorrectionIsNew(l: Ledger, r: RunId, context: string, now: int)
    requires MutexInv(l) && RunsInv(l, now) && IndexInv(l) && l.task.Some? && r in l.runs
    requires AwaitsCorrection(l, r) && l.task.value.activeRunId.None?
    ensures l.runs[r].runId == r
    ensures var a := CorrectionArgs(now, l.runs[r], context);
            GoodArgs(a, now) && NewRequest(l.(task := Some(l.task.value.(delivery := None))), a)
  {
    assert GoodRun(l.runs[r], now) && RunLocked(l, r);
    var x := RequestKey(l.id, DeliveryCorrection, CorrectionOf(r));
    assert x in l.requestRuns ==> GoodKey(l, x);
  }

  /** A correction mints at most once per binding, and keeps the binding. */
  lemma CorrectionMints(l: Ledger, r: RunId, context: string, now: int)
    requires Inv(l, now) && l.task.Some? && r in l.runs
    requires l.task.value.closedAt.None? && DeliveryWaiting(l.task.value) && AwaitsCorrection(l, r)
    requires l.task.value.activeRunId.None?
    ensures var o := CorrectDelivery(now, l.task.value, l.runs[r], context);
            o.Decided? ==>
              && o.decision.additionalRun.Some?
              && o.decision.run == Some(l.runs[r])
              && Mints(l, Decision(o.decision.task, o.decision.additionalRun, None, o.decision.outbox), now)
  {
    var bare := l.(task := Some(l.task.value.(delivery := None)));
    var a := CorrectionArgs(now, l.runs[r], context);
    CorrectionIsNew(l, r, context, now);
    RequestRunMints(bare, a, now);
    var o := RequestRun(a, bare.task, None);
    if o.Decided? {
      var t := o.decision.task.(delivery := Some(l.task.value.delivery.value.(
                 correctionRunId := Some(o.decision.run.value.runId))));
      CorrectionKeepsBinding(l, bare, o.decision, o.decision.(task := t), r, now);
    }
  }

  lemma CorrectionKeepsBinding(l: Ledger, bare: Ledger, minted: Decision, d: Decision, r: RunId, now: int)
    requires l.task.Some? && l.task.value.delivery.Some? && l.task.value.delivery.value.runId == r
    requires bare == l.(task := Some(l.task.value.(delivery := None)))
    requires Mints(bare, minted, now)
    requires d == minted.(task := minted.task.(delivery := Some(l.task.value.delivery.value.(
                            correctionRunId := minted.task.activeRunId))))
    requires minted.run.value.requestSource.DeliveryCorrection?
    requires minted.run.value.params.deliveryPredecessor == Some(r)
    ensures Mints(l, d, now)
  {
  }
}
