/** Exactly which requests are decided, and everything a decided one writes: over the
    ledger and the request as they stand, whatever guards and intents it carries. */
module Requests {
  import opened Model
  import opened Decide
  import opened Routing
  import opened Orchestrator
  import opened Ledgers
  import opened Invariants
  import opened Primitives
  import opened TouchSteps
  import opened RequestPlans
  import opened Admission
  import opened Labels
  import opened CommandPlans

  // ------------------------------------------------------------------------ acceptance

  /** No delivery waits on the task, or a named person replies to it. */
  predicate GateOpen(task: Task, params: Params) {
    task.delivery.Some? && task.delivery.value.state.Waiting? ==>
      params.mode == Some(Reply) && params.replyPrincipal.Some?
  }

  /** Were no run live, the task would take the request. */
  predicate TakenWhenIdle(task: Option<Task>, input: RequestInput) {
    && SameSource(task, input.issue)
    && if task.None? then input.work.Some? else task.value.closedAt.None? && GateOpen(task.value, input.params)
  }

  /** Unlabelled, a request passes the same guards as a labelled one. */
  lemma GuardsPassed(l: Ledger, now: int, input: RequestInput, requestId: string)
    requires input.labelIntent.None? && ResolvedRequestId(l, input) == Some(requestId)
    ensures var state := Snapshot(l, input, requestId);
            var a := ArgsOf(now, input, state);
            DecideRequest(now, input, state).Decided? <==>
              PassesGuards(l, input)
              && if input.replaceQueuedRunId.Some? then ReplaceQueuedRun(a, input, l.task, ActiveRun(l)).Decided?
                 else if input.sourceRevision.None? then RequestRun(a, l.task, ActiveRun(l)).Decided?
                 else RequestRevisionRun(a.(sourceRevision := input.sourceRevision), l.task, ActiveRun(l)).Decided?
  {
  }

  /** A plain request is decided exactly if it passes its guards, no run is live, and the
      idle task takes it. */
  lemma PlainRequestDecided(l: Ledger, clock: int, now: int, input: RequestInput)
    requires Inv(l, clock) && input.labelIntent.None? && input.replaceQueuedRunId.None?
    requires input.sourceRevision.None?
    ensures RequestOutcome(l, now, input).Decided? <==>
              && PassesGuards(l, input) && TakenWhenIdle(l.task, input)
              && (l.task.Some? ==> l.task.value.activeRunId.None?)
  {
    ActiveIsLive(l, clock);
    if ResolvedRequestId(l, input).Some? { GuardsPassed(l, now, input, ResolvedRequestId(l, input).value); }
  }

  /** A switch of provider is decided exactly if the live run is the one it names, still
      queued, on another provider, and the task without it takes the request. */
  lemma SwitchDecided(l: Ledger, clock: int, now: int, input: RequestInput)
    requires Inv(l, clock) && input.labelIntent.None? && input.replaceQueuedRunId.Some?
    requires input.sourceRevision.None?
    ensures RequestOutcome(l, now, input).Decided? <==>
              && PassesGuards(l, input) && TakenWhenIdle(l.task, input)
              && l.task.Some? && l.task.value.activeRunId == input.replaceQueuedRunId
              && var owner := l.runs[input.replaceQueuedRunId.value];
                 IsQueued(owner) && owner.pipeline != input.pipeline
  {
    ActiveIsLive(l, clock);
    if ResolvedRequestId(l, input).Some? {
      var requestId := ResolvedRequestId(l, input).value;
      GuardsPassed(l, now, input, requestId);
      SwitchReplaces(l, clock, ArgsOf(now, input, Snapshot(l, input, requestId)), input);
    }
  }

  lemma SwitchReplaces(l: Ledger, clock: int, a: RequestArgs, input: RequestInput)
    requires Inv(l, clock) && input.replaceQueuedRunId.Some?
    requires a.params == input.params && a.requestSource.Caller? && GivenIssue(a.issue) == input.issue
    ensures ReplaceQueuedRun(a, input, l.task, ActiveRun(l)).Decided? <==>
              && l.task.Some? && l.task.value.activeRunId == input.replaceQueuedRunId
              && TakenWhenIdle(l.task, input)
              && var owner := l.runs[input.replaceQueuedRunId.value];
                 IsQueued(owner) && owner.pipeline != input.pipeline
  {
    ActiveIsLive(l, clock);
    if ActiveRun(l).Some? {
      ReadsHeld(l, ActiveRun(l).value.runId, clock);
      OwnerReplaced(a, input, l.task.value, ActiveRun(l).value, clock);
    }
  }

  lemma OwnerReplaced(a: RequestArgs, input: RequestInput, t: Task, owner: Run, clock: int)
    requires Held(t, owner, clock) && IsLive(owner.state) && input.replaceQueuedRunId.Some?
    requires a.params == input.params && a.requestSource.Caller? && GivenIssue(a.issue) == input.issue
    ensures ReplaceQueuedRun(a, input, Some(t), Some(owner)).Decided? <==>
              && owner.runId == input.replaceQueuedRunId.value && IsQueued(owner)
              && owner.pipeline != input.pipeline && TakenWhenIdle(Some(t), input)
  {
    assert GoodOperation(owner);
  }

  // --------------------------------------------------------------------- what it mints

  /** The provider the request works on: its own, unless it goes by the task's, which is the
      one the last accepted label chose, or the one the caller derives from the stored task. */
  function AskedPipeline(task: Option<Task>, input: RequestInput): Pipeline {
    if !input.useEffectivePipeline || task.None? then input.pipeline
    else if task.value.providerRouting.Some? && task.value.providerRouting.value.acceptedGeneration.Some? then
      task.value.providerRouting.value.acceptedGeneration.value.pipeline
    else if input.pipelineForStoredTask.Some? then input.pipelineForStoredTask.value(task.value)
    else input.pipeline
  }

  /** The policy a request grants: the alternatives listed for its provider, begun by this run
      on its own provider; none when there are no alternatives. */
  ghost predicate GrantsPolicy(granted: Option<FallbackInput>, run: Run) {
    match granted
    case None => run.providerFallback.None?
    case Some(Carried(policy)) => run.providerFallback == if policy.allowedPipelines == [] then None else Some(policy)
    case Some(Authorized(principal, repository, pipelines)) =>
      if pipelines == [] then run.providerFallback.None?
      else && run.providerFallback.Some?
           && var policy := run.providerFallback.value;
              && policy.principal == principal && policy.sourceRepository == repository
              && policy.allowedPipelines == pipelines && policy.attemptedPipelines == [run.pipeline]
              && policy.originalRunId == run.runId && policy.fromRunId.None? && policy.trigger.None?
  }

  /** A run as it is born: pending, unqueued and unclaimed, with two hours to be dispatched. */
  ghost predicate Newborn(run: Run, now: int) {
    && run.state.Pending? && run.queue.None? && run.delivery.None? && run.triagePublication.None?
    && run.credentialOperation.None? && run.credentialRestoredClaimFingerprint.None?
    && run.credentialPendingResult.None? && run.credentialWriteReceipt.None? && run.result.None?
    && run.leaseExpiresAt == now + 120 * MINUTES && run.createdAt == now && run.updatedAt == now
    && run.events == [RunEvent(now, Pending, ByRequest, None)]
  }

  /** The issue the task keeps is the newer of the two it knows, and the stored one on a tie. */
  ghost predicate NewestKept(stored: Option<Issue>, given: Option<Issue>, kept: Option<Issue>) {
    && (kept == stored || kept == given)
    && (stored.Some? ==> kept.Some? && stored.value.updatedAt <= kept.value.updatedAt)
    && (given.Some? ==> kept.Some? && given.value.updatedAt <= kept.value.updatedAt)
    && (stored.Some? && given.Some? && given.value.updatedAt <= stored.value.updatedAt ==> kept == stored)
  }

  /** Whatever is asked is minted so, by a caller's request or an internal one; of what the
      task knew only the lock, the count, the issue and the desire move. */
  lemma RequestMintsExactly(a: RequestArgs, task: Option<Task>, active: Option<Run>, d: Decision)
    requires RequestRun(a, task, active) == Decided(d)
    ensures d.run.Some? && d.additionalRun.None? && Newborn(d.run.value, a.now)
    ensures var run := d.run.value;
            && run.runId == RunId(a.taskId, (if task.Some? then task.value.runCount else 0) + 1)
            && run.pipeline == a.pipeline && run.params == a.params
            && run.requestId == a.requestId && run.requestSource == a.requestSource
            && run.priority == (if a.priority.Some? then a.priority.value else Normal)
            && run.sourceRevision == a.sourceRevision
            && run.revisionAttempt == (if a.sourceRevision.Some? then Some(1) else None)
            && run.issue == (if a.issue.IssueGiven? then a.issue.issue else d.task.issue)
            && GrantsPolicy(a.providerFallback, run)
    ensures d.outbox == [NewEntry(DispatchRun, d.run.value.runId, a.now)]
    ensures NewestKept(if task.Some? then task.value.issue else None, GivenIssue(a.issue), d.task.issue)
    ensures d.task.activeRunId == Some(d.run.value.runId) && d.task.runCount == d.run.value.runId.n
    ensures d.task.task == a.taskId && d.task.closedAt.None? && d.task.updatedAt == a.now
            && d.task.desiredRevision == a.sourceRevision
            && d.task.sourceObservedAt
               == (if a.sourceRevision.Some? then a.sourceRevision.value.observedAt else None)
    ensures if task.None? then Some(d.task.work) == a.work && d.task.delivery.None? && d.task.consecutiveLost == 0
                               && d.task.providerRouting.None?
            else d.task.work == task.value.work && d.task.delivery == task.value.delivery
                 && d.task.consecutiveLost == task.value.consecutiveLost
                 && d.task.providerRouting == task.value.providerRouting
  {
  }

  /** The priority a request is minted at: its own; or else the one of the run it takes over
      from, where it takes over; or else normal. */
  function AskedPriority(input: RequestInput, state: RequestState): Priority {
    if input.labelIntent.Some? && state.activeRun.Some? then state.activeRun.value.priority
    else if input.labelIntent.Some? && state.evidence.latestRun.Some? then state.evidence.latestRun.value.priority
    else if input.priority.Some? then input.priority.value
    else if input.replaceQueuedRunId.Some? && state.activeRun.Some? then state.activeRun.value.priority
    else Normal
  }

  /** Through every path that admits it, the run is the one the request describes. */
  lemma RequestMintsInput(now: int, input: RequestInput, state: RequestState, d: Decision)
    requires DecideRequest(now, input, state) == Decided(d) && d.run.Some?
    requires state.activeRun.Some? ==> IsLive(state.activeRun.value.state)
    ensures d.run.value.pipeline == AskedPipeline(state.task, input)
    ensures d.run.value.priority == AskedPriority(input, state)
    ensures d.run.value.issue == (if input.issue.Some? then input.issue else d.task.issue)
    ensures d.run.value.sourceRevision == (if input.labelIntent.None? && input.replaceQueuedRunId.None?
                                           then input.sourceRevision else None)
    ensures GrantsPolicy(if input.fallbackForPipeline.Some?
                         then input.fallbackForPipeline.value(AskedPipeline(state.task, input))
                         else input.providerFallback, d.run.value)
    ensures Newborn(d.run.value, now)
  {
    var a := ArgsOf(now, input, state);
    RequestCases(now, input, state, d);
    if input.labelIntent.Some? {
      LabelMintsInput(a, state.task, state.activeRun, AdmittedPipeline(input, state.task), input.labelIntent.value,
                      state.evidence, d);
    } else if input.replaceQueuedRunId.Some? {
      ReplaceMintsInput(a, input, state.task, state.activeRun, d);
    } else if input.sourceRevision.Some? {
      RevisionMintsInput(a.(sourceRevision := input.sourceRevision), state.task, state.activeRun, d);
    } else {
      RequestMintsExactly(a, state.task, state.activeRun, d);
    }
  }

  /** The run of a request, as its arguments describe it. */
  ghost predicate Described(a: RequestArgs, d: Decision) {
    && d.run.Some? && Newborn(d.run.value, a.now)
    && d.run.value.pipeline == a.pipeline
    && d.run.value.priority == (if a.priority.Some? then a.priority.value else Normal)
    && d.run.value.issue == (if a.issue.IssueGiven? then a.issue.issue else d.task.issue)
    && d.run.value.sourceRevision == a.sourceRevision
    && GrantsPolicy(a.providerFallback, d.run.value)
  }

  lemma LabelMintsInput(given: RequestArgs, task: Option<Task>, active: Option<Run>, admitted: Pipeline,
                        intent: LabelRequest, evidence: RoutingEvidence, d: Decision)
    requires DecideLabelProviderRequest(given, task, active, admitted, intent, evidence) == Decided(d) && d.run.Some?
    requires active.Some? ==> IsLive(active.value.state)
    ensures Described(given.(priority := LabelPriority(active, evidence.latestRun, given.priority)), d)
  {
    LabelCases(given, task, active, admitted, intent, evidence, d);
  }

  lemma ReplaceMintsInput(a: RequestArgs, input: RequestInput, task: Option<Task>, active: Option<Run>, d: Decision)
    requires input.replaceQueuedRunId.Some? && ReplaceQueuedRun(a, input, task, active) == Decided(d)
    ensures Described(a, d)
  {
  }

  lemma RevisionMintsInput(a: RequestArgs, task: Option<Task>, active: Option<Run>, d: Decision)
    requires a.sourceRevision.Some? && RequestRevisionRun(a, task, active) == Decided(d) && d.run.Some?
    ensures Described(a, d)
  {
    if task.Some? { RevisionCases(a, task.value, active, d); }
  }

  /** The run canceled at this instant, with one event that says why, and otherwise as it was. */
  function CanceledFor(run: Run, now: int, note: Note): Run {
    run.(state := Canceled, updatedAt := now,
         events := run.events + [RunEvent(now, Canceled, ByOperator, Some(note))])
  }

  // ------------------------------------------------------------------- label records

  /** Whether it is accepted or not, the record of a label says who asked for which provider,
      when, over which run; refused, it keeps the provider that was in effect. */
  lemma LabelRecordIsTrue(given: RequestArgs, task: Option<Task>, active: Option<Run>, admitted: Pipeline,
                          intent: LabelRequest, evidence: RoutingEvidence, d: Decision)
    requires DecideLabelProviderRequest(given, task, active, admitted, intent, evidence) == Decided(d)
    requires d.run.Some? || d.task.providerRouting != task.value.providerRouting
    ensures d.task.providerRouting.Some?
    ensures var record := d.task.providerRouting.value;
            && record.requestId == given.requestId && record.requestedAt == intent.requestedAt
            && record.actor == intent.actor && record.requestedPipeline == given.pipeline
            && record.fromRunId == (if evidence.latestRun.Some? then Some(evidence.latestRun.value.runId) else None)
            && record.effectivePipeline == (if d.run.Some? then given.pipeline else admitted)
    ensures d.run.None? ==>
              d == Decision(task.value.(providerRouting := d.task.providerRouting, updatedAt := given.now),
                            None, None, [])
  {
  }

  /** A label that changes the provider under a queued run cancels that run, which reports
      nothing, and publishes only the dispatch of its successor. */
  lemma LabelHandsOver(given: RequestArgs, task: Option<Task>, active: Option<Run>, admitted: Pipeline,
                       intent: LabelRequest, evidence: RoutingEvidence, d: Decision)
    requires DecideLabelProviderRequest(given, task, active, admitted, intent, evidence) == Decided(d) && d.run.Some?
    requires active.Some? ==> task.Some? && IsLive(active.value.state)
    ensures d.outbox == [NewEntry(DispatchRun, d.run.value.runId, given.now)]
    ensures d.additionalRun.Some? <==> active.Some?
    ensures active.Some? ==>
              && given.pipeline != admitted && IsQueued(active.value)
              && d.additionalRun == Some(CanceledFor(active.value, given.now, LabelHandoff(given.pipeline)))
  {
  }

  // ------------------------------------------------------------------ source revisions

  /** One observation is newer than another exactly if some clock of it is not covered. */
  lemma NewerIsUncovered(known: map<string, int>, observed: map<string, int>)
    ensures SomeNewer(known, observed) <==> !ClocksForward(observed, known)
  {
    NotOlderIsForward(observed, known);
    if SomeNewer(known, observed) {
      var source :| source in observed && ObservedBefore(known, source, observed[source]);
      assert ObservedBefore(known, source, observed[source]);
    }
    if SomeOlder(observed, known) {
      var source :| source in observed && ObservedBefore(known, source, observed[source]);
      assert ObservedBefore(known, source, observed[source]);
    }
  }

  /** Some source was seen earlier than it is known already. */
  ghost predicate Outrun(t: Task, revision: WorkRevision) {
    revision.observedAt.Some? && !ClocksForward(Known(t), revision.observedAt.value)
  }

  /** The task desires this content already. */
  predicate Repeated(t: Task, revision: WorkRevision) {
    revision.observedAt.Some? && t.desiredRevision.Some? && t.desiredRevision.value.input == revision.input
  }

  /** No source was seen later than it is known already. */
  ghost predicate Unseen(t: Task, revision: WorkRevision) {
    && revision.observedAt.Some? && t.sourceObservedAt.Some?
    && ClocksForward(revision.observedAt.value, t.sourceObservedAt.value)
  }

  /** A revision the task is to desire from now on: not outrun, not repeated, and seen later
      than what is known. */
  ghost predicate NewlyDesired(t: Task, revision: WorkRevision) {
    !Outrun(t, revision) && !Repeated(t, revision) && !Unseen(t, revision)
  }

  /** What a revision request is answered on an open task: an outrun one, and one that is no
      news, changes nothing; repeated content moves the clocks forward once; a newly desired
      one waits behind a claimed run, replaces an unclaimed one, and is minted on an idle task. */
  lemma RevisionAnswered(a: RequestArgs, t: Task, active: Option<Run>)
    requires a.sourceRevision.Some? && t.closedAt.None? && (active.Some? ==> IsLive(active.value.state))
    ensures var revision := a.sourceRevision.value;
            var o := RequestRevisionRun(a, Some(t), active);
            && (Outrun(t, revision) ==> o == Decided(Decision(t, None, None, [])))
            && (!Outrun(t, revision) && Repeated(t, revision) ==>
                  o == if t.sourceObservedAt == revision.observedAt then Refuse(DuplicateRequest)
                       else Decided(Decision(t.(sourceObservedAt := revision.observedAt), None, None, [])))
            && (!Outrun(t, revision) && !Repeated(t, revision) && Unseen(t, revision) ==>
                  o == Decided(Decision(t, None, None, [])))
            && (NewlyDesired(t, revision) ==> Desired(a, t, active, o))
  {
    var revision := a.sourceRevision.value;
    if revision.observedAt.Some? {
      NotOlderIsForward(Known(t), revision.observedAt.value);
      NewerIsUncovered(Known(t), revision.observedAt.value);
    }
  }

  /** The answer to a newly desired revision. */
  ghost predicate Desired(a: RequestArgs, t: Task, active: Option<Run>, o: Outcome)
    requires a.sourceRevision.Some?
  {
    if active.Some? && IsClaimed(active.value) then
      o.Decided? && o.decision.run.None? && o.decision.outbox == [] && o.decision.additionalRun.None?
      && Awaits(t, a, o.decision.task)
    else if active.Some? then
      && (o.Decided? <==> active.value.credentialOperation.None? && SameSource(Some(t), GivenIssue(a.issue))
                          && DeliveryAdmits(t, a.requestSource, a.params))
      && (o.Decided? ==>
            && o.decision.run.Some? && o.decision.run.value.sourceRevision == a.sourceRevision
            && o.decision.additionalRun == Some(CanceledFor(active.value, a.now, SupersededByRevision))
            && o.decision.outbox == [NewEntry(ReportOutcome, active.value.runId, a.now),
                                     NewEntry(DispatchRun, o.decision.run.value.runId, a.now)])
    else o == RequestRun(a, Some(t), None)
  }

  /** The task with its new desire and the clocks it was seen at, and otherwise as it was. */
  ghost predicate Awaits(t: Task, a: RequestArgs, after: Task)
    requires a.sourceRevision.Some?
  {
    && after.desiredRevision == a.sourceRevision && after.updatedAt == a.now
    && after.sourceObservedAt == (if a.sourceRevision.value.observedAt.Some? then a.sourceRevision.value.observedAt
                                  else t.sourceObservedAt)
    && after == t.(desiredRevision := after.desiredRevision, sourceObservedAt := after.sourceObservedAt,
                   updatedAt := after.updatedAt)
  }

  /** The newest run of a task, for a source revision, is invalidated exactly by an observation
      that outruns no clock and is newer in one: the task desires nothing then, an unclaimed
      run is canceled, and a claimed or settled one only loses its pending triage. */
  lemma InvalidationAnswered(now: int, t: Task, run: Run, observed: map<string, int>, cleanupId: string)
    requires Held(t, run, now)
    ensures var o := DecideOnRun(now, t, run, SourceInvalidated(observed), cleanupId);
            && (o.Decided? <==> run.runId.n == t.runCount && run.sourceRevision.Some?
                                && (IsLive(run.state) && !IsClaimed(run) && Invalidates(t, observed) ==>
                                      run.credentialOperation.None?))
            && (o.Decided? && !Invalidates(t, observed) ==> o == Decided(Decision(t, None, None, [])))
            && (o.Decided? && Invalidates(t, observed) ==>
                  Withdrawn(now, t.(desiredRevision := None, sourceObservedAt := Some(observed), updatedAt := now), run,
                            o.decision))
  {
    NotOlderIsForward(Known(t), observed);
    NewerIsUncovered(Known(t), observed);
  }

  ghost predicate Invalidates(t: Task, observed: map<string, int>) {
    ClocksForward(Known(t), observed) && !ClocksForward(observed, Known(t))
  }

  /** What withdrawing the desire does to the run that carries it. */
  ghost predicate Withdrawn(now: int, undesired: Task, run: Run, d: Decision) {
    if IsLive(run.state) && !IsClaimed(run) then
      && d.task == undesired.(activeRunId := None, consecutiveLost := 0)
      && d.outbox == [NewEntry(ReportOutcome, run.runId, now)]
      && d.run == Some(CanceledFor(run, now, SourceIneligible))
    else
      && d.task == undesired && d.outbox == []
      && d.run == if run.triagePublication == Some(TriagePending)
                  then Some(run.(triagePublication := Some(TriageSuperseded), updatedAt := now)) else None
  }
}
