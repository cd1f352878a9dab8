/** The inductive invariant of the orchestrator's durable state. */
module Invariants {
  import opened Model
  import opened Decide
  import opened Credential
  import opened Ledgers

  const MINUTES := 60_000

  // ------------------------------------------------------------------- one run

  /** What no step may change about a run once it is minted. */
  ghost predicate SameIdentity(a: Run, b: Run) {
    && a.runId == b.runId && a.pipeline == b.pipeline && a.priority == b.priority
    && a.requestId == b.requestId && a.requestSource == b.requestSource
    && a.params == b.params && a.issue == b.issue
    && a.sourceRevision == b.sourceRevision && a.revisionAttempt == b.revisionAttempt
    && a.providerFallback == b.providerFallback && a.createdAt == b.createdAt
  }

  ghost predicate Unique(pipelines: seq<Pipeline>) {
    forall i, j | 0 <= i < j < |pipelines| :: pipelines[i] != pipelines[j]
  }

  function Elements(pipelines: seq<Pipeline>): set<Pipeline> {
    set p | p in pipelines
  }

  /** Alternatives the policy still allows. */
  function Untried(policy: FallbackPolicy): set<Pipeline> {
    Elements(policy.allowedPipelines) - Elements(policy.attemptedPipelines)
  }

  /** Every attempt but the first came out of the allowed list. */
  ghost predicate GoodPolicy(policy: FallbackPolicy, pipeline: Pipeline) {
    && policy.allowedPipelines != []
    && Unique(policy.allowedPipelines)
    && Unique(policy.attemptedPipelines)
    && pipeline in policy.attemptedPipelines
    && (forall i | 1 <= i < |policy.attemptedPipelines| :: policy.attemptedPipelines[i] in policy.allowedPipelines)
  }

  /** A claim's identity and its start-up clock. */
  ghost predicate GoodClaim(queue: RunQueue, clock: int) {
    && queue.claimedAt.Some? && queue.startDeadlineAt.Some? && queue.tokenHash.Some?
    && queue.claimedBy.Some? && queue.claimedBySubject.Some?
    && queue.claimedAt.value <= clock
    && queue.startDeadlineAt.value <= clock + RUN_START_TIMEOUT_MS
    && match queue.startupPlacement
       case None => queue.startDeadlineAt.value == queue.claimedAt.value + RUN_START_TIMEOUT_MS
       case Some(placement) =>
         if placement.placed
         then queue.startDeadlineAt.value
                < queue.claimedAt.value + RUN_PLACEMENT_WAIT_MAX_MS + RUN_START_TIMEOUT_MS
         else queue.startDeadlineAt.value <= queue.claimedAt.value + RUN_PLACEMENT_WAIT_MAX_MS
  }

  /** An operation is open only on the exact claim it was reserved under. */
  ghost predicate GoodOperation(run: Run) {
    run.credentialOperation.Some? ==>
      var op := run.credentialOperation.value;
      && UsesCodexCredentials(run)
      && IsClaimant(run, op.claimFingerprint)
      && op.mutationSequence <= MAX_MUTATIONS
      && (op.mutation.Some? ==> op.mutationSequence >= 1
                                && op.mutation.value.id == MutationId(op.id, op.mutationSequence))
  }

  /** A deferred report belongs to a live run with its operation still open. */
  ghost predicate GoodPending(run: Run, clock: int) {
    run.credentialPendingResult.Some? ==>
      && IsLive(run.state)
      && run.credentialOperation.Some?
      && run.credentialPendingResult.value.claimFingerprint == run.credentialOperation.value.claimFingerprint
      && run.credentialPendingResult.value.requestedAt <= clock
  }

  ghost predicate GoodRun(run: Run, clock: int) {
    && run.leaseExpiresAt <= clock + RUN_LEASE_MS
    && run.createdAt <= clock
    && (IsClaimed(run) ==> GoodClaim(run.queue.value, clock))
    && GoodOperation(run)
    && GoodPending(run, clock)
    && (run.delivery.Some? ==> run.delivery.value.runId == run.runId)
    && (run.providerFallback.Some? ==> GoodPolicy(run.providerFallback.value, run.pipeline))
    && (run.sourceRevision.Some? ==>
          run.revisionAttempt.Some? && 1 <= run.revisionAttempt.value <= MAX_AUTO_RETRIES + 1
          && run.providerFallback.None?)
    && (IsLive(run.state) <==> run.result.None? && !run.state.Canceled? && !run.state.Lost?)
  }

  ghost predicate RunsInv(l: Ledger, clock: int) {
    forall r | r in l.runs :: GoodRun(l.runs[r], clock)
  }

  // ----------------------------------------------------------------- the mutex

  function RunCount(l: Ledger): nat {
    if l.task.Some? then l.task.value.runCount else 0
  }

  ghost predicate Active(l: Ledger, r: RunId) {
    l.task.Some? && l.task.value.activeRunId == Some(r)
  }

  /** A run is numbered under the task's count, and is live exactly when it holds the lock. */
  ghost predicate RunLocked(l: Ledger, r: RunId)
    requires r in l.runs
  {
    && l.runs[r].runId == r && r.task == l.id && 1 <= r.n <= RunCount(l)
    && (IsLive(l.runs[r].state) <==> Active(l, r))
  }

  ghost predicate TaskLocked(l: Ledger) {
    && l.task.Some? ==>
         && l.task.value.task == l.id
         && (l.task.value.activeRunId.Some? ==>
               l.task.value.activeRunId.value in l.runs && l.task.value.closedAt.None?)
  }

  ghost predicate MutexInv(l: Ledger) {
    && TaskLocked(l)
    && (forall r | r in l.runs :: RunLocked(l, r))
    && (forall n | 1 <= n <= RunCount(l) :: RunId(l.id, n) in l.runs)
  }

  // ------------------------------------------------------------- request history

  /** The task's binding still admits a correction of this run. */
  ghost predicate AwaitsCorrection(l: Ledger, r: RunId) {
    && l.task.Some? && l.task.value.delivery.Some?
    && l.task.value.delivery.value.runId == r && l.task.value.delivery.value.correctionRunId.None?
  }

  ghost predicate SettledRun(l: Ledger, r: RunId) {
    r in l.runs && !IsLive(l.runs[r].state)
  }

  /** A dependent key exists only once its predecessor can have no second one. */
  ghost predicate SpentKey(l: Ledger, k: RequestKey) {
    match k.source
    case Caller => k.id.Raw?
    case AutoRetry => k.id.RetryOf? && SettledRun(l, k.id.run)
    case ProviderFallback => k.id.FallbackOf? && SettledRun(l, k.id.run)
    case DeliveryCorrection => k.id.CorrectionOf? && SettledRun(l, k.id.run) && !AwaitsCorrection(l, k.id.run)
  }

  ghost predicate GoodKey(l: Ledger, k: RequestKey)
    requires k in l.requestRuns
  {
    l.requestRuns[k] in l.runs && KeyOf(l.runs[l.requestRuns[k]]) == k && SpentKey(l, k)
  }

  ghost predicate Indexed(l: Ledger, r: RunId)
    requires r in l.runs
  {
    KeyOf(l.runs[r]) in l.requestRuns && l.requestRuns[KeyOf(l.runs[r])] == r
  }

  ghost predicate IndexInv(l: Ledger) {
    && (forall r | r in l.runs :: Indexed(l, r))
    && (forall k | k in l.requestRuns :: GoodKey(l, k))
  }

  // ------------------------------------------------------------- source revisions

  ghost predicate Carries(run: Run, key: string) {
    run.sourceRevision.Some? && run.sourceRevision.value.key == key
  }

  ghost predicate SameRevision(a: Run, b: Run) {
    b.sourceRevision.Some? && Carries(a, b.sourceRevision.value.key)
  }

  /** No run of the task carries the key, and no request has used it. */
  ghost predicate Unminted(l: Ledger, key: string) {
    && (forall r | r in l.runs :: !Carries(l.runs[r], key))
    && CallerKey(l, key) !in l.requestRuns
  }

  /** Everything that is desired or carried has an admission receipt. */
  ghost predicate ReceiptInv(l: Ledger) {
    && (l.task.Some? && l.task.value.desiredRevision.Some? ==>
          l.task.value.desiredRevision.value.key in l.sourceRevisions)
    && (forall r | r in l.runs && l.runs[r].sourceRevision.Some? ::
          l.runs[r].sourceRevision.value.key in l.sourceRevisions)
  }

  /** Attempts of one revision differ, and a live one is the newest. */
  ghost predicate AttemptsOrdered(a: Run, b: Run) {
    SameRevision(a, b) ==>
      Attempt(a) != Attempt(b) && (IsLive(a.state) ==> Attempt(b) < Attempt(a))
  }

  ghost predicate AttemptInv(l: Ledger) {
    forall a, b | a in l.runs && b in l.runs && a != b :: AttemptsOrdered(l.runs[a], l.runs[b])
  }

  /** A revision coalesced behind a live attempt of another one is not minted yet. */
  ghost predicate CoalesceInv(l: Ledger) {
    forall r | r in l.runs && Active(l, r) && IsSuperseded(l.task.value, l.runs[r]) ::
      Unminted(l, l.task.value.desiredRevision.value.key)
  }

  // -------------------------------------------------------------------- effects

  /** A cancellation that hands the run over: a reroute, or a label handoff. */
  ghost predicate HandsOver(event: RunEvent) {
    event.to.Canceled?
    && (event.actor.ByProviderFallback? || (event.note.Some? && event.note.value.LabelHandoff?))
  }

  /** The two cancellations that publish no outcome: a reroute and a label handoff. */
  ghost predicate Unreported(run: Run) {
    run.state.Canceled? && exists i | 0 <= i < |run.events| :: HandsOver(run.events[i])
  }

  ghost predicate AwaitsDelivery(task: Option<Task>, r: RunId) {
    && task.Some? && task.value.delivery.Some?
    && task.value.delivery.value.runId == r && task.value.delivery.value.state.Waiting?
  }

  ghost predicate SettlementEffect(effect: Effect) {
    effect.ReportOutcome? || effect.PublishTriage? || effect.HandoffSummary? || effect.MonitorDelivery?
    || effect.DeliveryOutcome?
  }

  ghost predicate GoodEntry(l: Ledger, e: EntryId) {
    && e.run in l.runs
    && (SettlementEffect(e.effect) ==> !IsLive(l.runs[e.run].state))
    && (e.effect.DeliveryOutcome? ==> !AwaitsDelivery(l.task, e.run))
  }

  /** Every run has its dispatch entry; a settled one its outcome, unless unreported. */
  ghost predicate RunEffects(l: Ledger, r: RunId)
    requires r in l.runs
  {
    && EntryId(DispatchRun, r) in l.outbox
    && (!IsLive(l.runs[r].state) && !Unreported(l.runs[r]) ==> EntryId(ReportOutcome, r) in l.outbox)
  }

  ghost predicate EffectInv(l: Ledger) {
    && (forall e | e in l.outbox :: GoodEntry(l, e))
    && (forall r | r in l.runs :: RunEffects(l, r))
  }

  // ------------------------------------------------------------- delivery ownership

  /** While a delivery waits, the live run answers it or succeeds it. */
  ghost predicate OwnsDelivery(task: Task, params: Params) {
    DeliveryWaiting(task) ==>
      AttributedReply(params) || params.deliveryPredecessor == Some(task.delivery.value.runId)
  }

  ghost predicate IssueAgrees(task: Task, issue: Option<Issue>) {
    issue.Some? ==> task.issue.Some? && task.issue.value.source == issue.value.source
  }

  ghost predicate DeliveryInv(l: Ledger) {
    l.task.Some? ==>
      && (l.task.value.delivery.Some? ==> SettledRun(l, l.task.value.delivery.value.runId))
      && (forall r | r in l.runs :: IssueAgrees(l.task.value, l.runs[r].issue)
                                    && (Active(l, r) ==> OwnsDelivery(l.task.value, l.runs[r].params)))
  }

  ghost predicate Inv(l: Ledger, clock: int) {
    && MutexInv(l) && RunsInv(l, clock) && IndexInv(l)
    && ReceiptInv(l) && AttemptInv(l) && CoalesceInv(l)
    && EffectInv(l) && DeliveryInv(l)
  }
}
