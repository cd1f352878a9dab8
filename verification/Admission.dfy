/** What a request is admitted on, what it mints, and how source revisions coalesce. */
module Admission {
  import opened Model
  import opened Decide
  import opened Routing
  import opened Orchestrator
  import opened Ledgers
  import opened Invariants
  import opened Primitives
  import opened RequestPlans
  import opened Machine

  // -------------------------------------------------------------------------- requests

  /** The issues of the task and of the request name one source. */
  predicate SameSource(task: Option<Task>, given: Option<Issue>) {
    task.Some? && task.value.issue.Some? && given.Some? ==> task.value.issue.value.source == given.value.source
  }

  /** A request is admitted exactly on an idle, open task whose waiting delivery it may
      own, or on an unknown task that it brings work for. */
  lemma RequestAdmitted(l: Ledger, a: RequestArgs, now: int)
    requires Inv(l, now)
    ensures RequestRun(a, l.task, ActiveRun(l)).Decided? <==>
              && SameSource(l.task, GivenIssue(a.issue))
              && if l.task.None? then a.work.Some?
                 else l.task.value.activeRunId.None? && l.task.value.closedAt.None?
                      && (DeliveryWaiting(l.task.value) ==>
                            || (a.params.mode == Some(Reply) && a.params.replyPrincipal.Some?)
                            || (!a.requestSource.Caller?
                                && a.params.deliveryPredecessor == Some(l.task.value.delivery.value.runId)))
  {
    ActiveIsLive(l, now);
  }

  /** What is minted is what was asked; what the task knew is kept: its work is written
      once, its issue only gets newer, and its delivery and routing stand. */
  lemma RequestMintsWhatWasAsked(l: Ledger, a: RequestArgs, now: int, d: Decision)
    requires Inv(l, now) && a.taskId == l.id && RequestRun(a, l.task, ActiveRun(l)) == Decided(d)
    ensures d.run.Some? && d.run.value.runId == RunId(l.id, RunCount(l) + 1) && d.run.value.runId !in l.runs
    ensures var run := d.run.value;
            && run.state.Pending? && run.pipeline == a.pipeline && run.params == a.params
            && run.requestId == a.requestId && run.requestSource == a.requestSource
            && run.priority == (if a.priority.Some? then a.priority.value else Normal)
            && run.sourceRevision == a.sourceRevision && run.queue.None? && run.result.None?
    ensures d.outbox == [NewEntry(DispatchRun, d.run.value.runId, a.now)]
    ensures if l.task.None? then Some(d.task.work) == a.work
            else d.task.work == l.task.value.work && d.task.delivery == l.task.value.delivery
                 && d.task.providerRouting == l.task.value.providerRouting
                 && d.task.consecutiveLost == l.task.value.consecutiveLost
    ensures GivenIssue(a.issue).Some? ==>
              d.task.issue.Some? && GivenIssue(a.issue).value.updatedAt <= d.task.issue.value.updatedAt
    ensures l.task.Some? && l.task.value.issue.Some? ==>
              d.task.issue.Some? && l.task.value.issue.value.updatedAt <= d.task.issue.value.updatedAt
  {
    ActiveIsLive(l, now);
    var r := RunId(l.id, RunCount(l) + 1);
    assert r in l.runs ==> RunLocked(l, r);
  }

  /** Switching provider replaces exactly the named queued run, by one request that
      keeps its priority unless told otherwise; a claimed or unqueued run is refused. */
  lemma ReplaceSwitchesProvider(l: Ledger, a: RequestArgs, input: RequestInput, now: int, d: Decision)
    requires Inv(l, now) && a.taskId == l.id && input.replaceQueuedRunId.Some?
    requires ReplaceQueuedRun(a, input, l.task, ActiveRun(l)) == Decided(d)
    ensures ActiveRun(l).Some? && ActiveRun(l).value.runId == input.replaceQueuedRunId.value
    ensures IsQueued(ActiveRun(l).value) && ActiveRun(l).value.pipeline != input.pipeline
    ensures d.additionalRun.Some? && d.additionalRun.value.runId == input.replaceQueuedRunId.value
            && d.additionalRun.value.state.Canceled?
    ensures d.run.Some? && d.run.value.requestId == a.requestId && d.run.value.pipeline == a.pipeline
            && d.task.activeRunId == Some(d.run.value.runId)
    ensures d.outbox == [NewEntry(ReportOutcome, input.replaceQueuedRunId.value, a.now),
                         NewEntry(DispatchRun, d.run.value.runId, a.now)]
  {
    ActiveIsLive(l, now);
  }

  /** Whatever path admits it, a minted run works on the pipeline the caller expected
      and authorized, for a task whose stored work the caller accepts. */
  lemma MintedPipelineIsAuthorized(now: int, input: RequestInput, state: RequestState, d: Decision)
    requires DecideRequest(now, input, state) == Decided(d) && d.run.Some?
    requires state.activeRun.Some? ==> IsLive(state.activeRun.value.state)
    ensures d.run.value.pipeline == EffectivePipeline(input, state.task)
    ensures input.isPipelineAuthorized.Some? ==> input.isPipelineAuthorized.value(d.run.value.pipeline)
    ensures input.expectedEffectivePipeline.Some? ==> input.expectedEffectivePipeline.value == d.run.value.pipeline
    ensures state.task.Some? && input.isStoredWorkCompatible.Some? ==>
              input.isStoredWorkCompatible.value(state.task.value)
    ensures d.run.value.requestId == Raw(state.requestId) && d.run.value.requestSource.Caller?
    ensures d.run.value.params == input.params
  {
    var a := ArgsOf(now, input, state);
    RequestCases(now, input, state, d);
    if input.labelIntent.Some? {
      LabelMintsAsked(a, state.task, state.activeRun, AdmittedPipeline(input, state.task), input.labelIntent.value,
                      state.evidence, d);
    } else if input.replaceQueuedRunId.Some? {
      ReplaceMintsAsked(a, input, state.task, state.activeRun, d);
    } else if input.sourceRevision.Some? && state.task.Some? {
      RevisionMintsAsked(a.(sourceRevision := input.sourceRevision), state.task.value, state.activeRun, d);
    }
  }

  /** The minted run carries the request's own identity, pipeline and parameters. */
  ghost predicate AsAsked(a: RequestArgs, run: Run) {
    && run.pipeline == a.pipeline && run.params == a.params
    && run.requestId == a.requestId && run.requestSource == a.requestSource
  }

  lemma LabelMintsAsked(a: RequestArgs, task: Option<Task>, active: Option<Run>, admitted: Pipeline,
                        intent: LabelRequest,
                        evidence: RoutingEvidence, d: Decision)
    requires DecideLabelProviderRequest(a, task, active, admitted, intent, evidence) == Decided(d) && d.run.Some?
    ensures AsAsked(a, d.run.value)
  {
    LabelCases(a, task, active, admitted, intent, evidence, d);
  }

  lemma ReplaceMintsAsked(a: RequestArgs, input: RequestInput, task: Option<Task>, active: Option<Run>, d: Decision)
    requires input.replaceQueuedRunId.Some? && ReplaceQueuedRun(a, input, task, active) == Decided(d)
    ensures d.run.Some? && AsAsked(a, d.run.value)
  {
  }

  lemma RevisionMintsAsked(a: RequestArgs, t: Task, active: Option<Run>, d: Decision)
    requires a.sourceRevision.Some? && RequestRevisionRun(a, Some(t), active) == Decided(d) && d.run.Some?
    ensures AsAsked(a, d.run.value)
  {
    RevisionCases(a, t, active, d);
  }

  // --------------------------------------------------------------------- task-only writes

  /** Closing and rewriting work are admitted exactly on an idle native task, closing
      only once; a refresh never replaces an issue by an older one of its source. */
  lemma TaskWritesAdmitted(l: Ledger, now: int, work: string, issue: Issue)
    requires Inv(l, now)
    ensures CloseTask(now, l.task, ActiveRun(l)).Decided? <==>
              l.task.Some? && l.task.value.task.Work? && l.task.value.activeRunId.None? && l.task.value.closedAt.None?
    ensures UpdateTaskWork(now, l.task, ActiveRun(l), work).Decided? <==>
              l.task.Some? && l.task.value.task.Work? && l.task.value.activeRunId.None?
    ensures RefreshIssue(now, l.task, issue).Decided? <==> l.task.Some? && SameSource(l.task, Some(issue))
    ensures RefreshIssue(now, l.task, issue).Decided? ==>
              var t := RefreshIssue(now, l.task, issue).decision.task;
              && t.issue.Some? && issue.updatedAt <= t.issue.value.updatedAt
              && (t.issue == l.task.value.issue || t.issue == Some(issue))
              && (l.task.value.issue.Some? ==> l.task.value.issue.value.updatedAt <= t.issue.value.updatedAt)
              && t.activeRunId == l.task.value.activeRunId && t.desiredRevision == l.task.value.desiredRevision
  {
    ActiveIsLive(l, now);
  }

  // ------------------------------------------------------------------- source revisions

  /** Every source is observed at least as late as before. */
  ghost predicate ClocksForward(before: map<string, int>, after: map<string, int>) {
    forall source | source in before :: source in after && before[source] <= after[source]
  }

  lemma NotOlderIsForward(known: map<string, int>, observed: map<string, int>)
    ensures SomeOlder(known, observed) <==> !ClocksForward(known, observed)
  {
    if !ClocksForward(known, observed) {
      var source :| source in known && !(source in observed && known[source] <= observed[source]);
      assert ObservedBefore(observed, source, known[source]);
    }
    if SomeOlder(known, observed) {
      var source :| source in known && ObservedBefore(observed, source, known[source]);
      assert !(source in observed && known[source] <= observed[source]);
    }
  }

  /** An observed revision never moves a source's clock back, and a stale one changes
      nothing at all. */
  lemma ObservationsMoveForward(a: RequestArgs, t: Task, active: Option<Run>, d: Decision)
    requires a.sourceRevision.Some? && a.sourceRevision.value.observedAt.Some?
    requires RequestRevisionRun(a, Some(t), active) == Decided(d)
    ensures ClocksForward(Known(t), Known(d.task))
    ensures !ClocksForward(Known(t), a.sourceRevision.value.observedAt.value) ==> d == Decision(t, None, None, [])
  {
    NotOlderIsForward(Known(t), a.sourceRevision.value.observedAt.value);
    RevisionCases(a, t, active, d);
  }

  /** A newer revision behind a claimed run waits as the desired one and mints nothing;
      behind an unclaimed run it replaces it at once. */
  lemma RevisionCoalesces(l: Ledger, a: RequestArgs, now: int, d: Decision)
    requires Inv(l, now) && a.sourceRevision.Some? && l.task.Some? && ActiveRun(l).Some?
    requires RequestRevisionRun(a, l.task, ActiveRun(l)) == Decided(d)
    ensures IsClaimed(ActiveRun(l).value) ==>
              d.run.None? && d.outbox == [] && d.task.activeRunId == l.task.value.activeRunId
    ensures d.run.Some? ==>
              && !IsClaimed(ActiveRun(l).value)
              && d.additionalRun.Some? && d.additionalRun.value.runId == ActiveRun(l).value.runId
              && d.additionalRun.value.state.Canceled?
              && d.run.value.sourceRevision == a.sourceRevision && d.task.desiredRevision == a.sourceRevision
              && d.task.activeRunId == Some(d.run.value.runId)
  {
    ActiveIsLive(l, now);
  }

  /** Source ineligibility withdraws the desired revision exactly when it is newer, and
      then no settlement of the run leads to another attempt. */
  lemma IneligibleEndsAttempts(now: int, t: Task, run: Run, observed: map<string, int>, d: Decision)
    requires InvalidateSourceRevision(now, t, run, observed) == Decided(d)
    requires SomeNewer(Known(t), observed) && ClocksForward(Known(t), observed)
    ensures d.task.desiredRevision.None?
    ensures forall settled: Run | settled.sourceRevision.Some? ::
              !AdvancesRevision(d.task, settled) && !RetriesLoss(d.task, settled)
  {
    NotOlderIsForward(Known(t), observed);
  }

  /** The content the task already desires mints nothing again: only its clock moves on,
      and the same clock is a duplicate. */
  lemma SameContentMintsNothing(a: RequestArgs, t: Task, active: Option<Run>)
    requires a.sourceRevision.Some? && a.sourceRevision.value.observedAt.Some? && t.closedAt.None?
    requires t.desiredRevision.Some? && t.desiredRevision.value.input == a.sourceRevision.value.input
    requires ClocksForward(Known(t), a.sourceRevision.value.observedAt.value)
    ensures var o := RequestRevisionRun(a, Some(t), active);
            if t.sourceObservedAt == a.sourceRevision.value.observedAt then o == Refuse(DuplicateRequest)
            else o == Decided(Decision(t.(sourceObservedAt := a.sourceRevision.value.observedAt), None, None, []))
  {
    NotOlderIsForward(Known(t), a.sourceRevision.value.observedAt.value);
  }

  /** The request sends again what the task desires, however its source has aged. */
  predicate Resends(event: Event, content: string) {
    && event.Requested? && event.input.labelIntent.None? && event.input.replaceQueuedRunId.None?
    && event.input.sourceRevision.Some? && event.input.sourceRevision.value.observedAt.Some?
    && event.input.sourceRevision.value.input == content
  }

  predicate Desires(l: Ledger, content: string) {
    l.task.Some? && l.task.value.desiredRevision.Some? && l.task.value.desiredRevision.value.input == content
  }

  lemma ResendingDecides(a: RequestArgs, t: Task, active: Option<Run>, d: Decision)
    requires a.sourceRevision.Some? && a.sourceRevision.value.observedAt.Some?
    requires t.desiredRevision.Some? && t.desiredRevision.value.input == a.sourceRevision.value.input
    requires RequestRevisionRun(a, Some(t), active) == Decided(d)
    ensures d.run.None? && d.additionalRun.None? && d.task.desiredRevision == t.desiredRevision
  {
    ObservationsMoveForward(a, t, active, d);
    if ClocksForward(Known(t), a.sourceRevision.value.observedAt.value) { SameContentMintsNothing(a, t, active); }
  }

  lemma ResendStep(l: Ledger, tick: Tick, content: string)
    requires Desires(l, content) && Resends(tick.event, content)
    ensures Step(l, tick).runs == l.runs && Desires(Step(l, tick), content)
  {
    var input := tick.event.input;
    RequestWrites(l, tick.now, input);
    var o := RequestOutcome(l, tick.now, input);
    if o.Decided? {
      var state := Snapshot(l, input, ResolvedRequestId(l, input).value);
      RequestCases(tick.now, input, state, o.decision);
      ResendingDecides(ArgsOf(tick.now, input, state).(sourceRevision := input.sourceRevision), l.task.value,
                       ActiveRun(l), o.decision);
      RecordedExtends(l, input, o.decision);
    }
  }

  /** The task desires the content before and after every step of the history. */
  ghost predicate KeepsDesiring(l: Ledger, trace: seq<Tick>, content: string)
    decreases |trace|
  {
    Desires(l, content) && (trace == [] || KeepsDesiring(Step(l, trace[0]), trace[1..], content))
  }

  /** The resends among the steps of a history that write any run. */
  ghost function WritingResends(l: Ledger, trace: seq<Tick>, content: string): nat
    decreases |trace|
  {
    if trace == [] then 0
    else (if Resends(trace[0].event, content) && Step(l, trace[0]).runs != l.runs then 1 else 0)
         + WritingResends(Step(l, trace[0]), trace[1..], content)
  }

  /** However a source keeps resending the content its task desires, under whatever keys and
      clocks and whatever happens in between, no resend mints or changes a run. */
  lemma {:induction false} ResendingMintsNothing(l: Ledger, trace: seq<Tick>, content: string)
    requires KeepsDesiring(l, trace, content)
    ensures WritingResends(l, trace, content) == 0
    decreases |trace|
  {
    if trace != [] {
      if Resends(trace[0].event, content) { ResendStep(l, trace[0], content); }
      ResendingMintsNothing(Step(l, trace[0]), trace[1..], content);
    }
  }

  /** And resends alone never make the task desire anything else. */
  lemma {:induction false} ResendingKeepsDesire(l: Ledger, trace: seq<Tick>, content: string)
    requires Desires(l, content) && forall i | 0 <= i < |trace| :: Resends(trace[i].event, content)
    ensures KeepsDesiring(l, trace, content) && Exec(l, trace).runs == l.runs
    decreases |trace|
  {
    if trace != [] {
      ResendStep(l, trace[0], content);
      ResendingKeepsDesire(Step(l, trace[0]), trace[1..], content);
    }
  }

  /** The provider an accepted label chose is the one later admissions work on. */
  lemma AcceptedLabelGoverns(given: RequestArgs, task: Option<Task>, active: Option<Run>, admitted: Pipeline,
                             intent: LabelRequest, evidence: RoutingEvidence, d: Decision, later: RequestInput)
    requires DecideLabelProviderRequest(given, task, active, admitted, intent, evidence) == Decided(d) && d.run.Some?
    ensures AdmittedPipeline(later, Some(d.task)) == d.run.value.pipeline
    ensures later.useEffectivePipeline ==> EffectivePipeline(later, Some(d.task)) == d.run.value.pipeline
  {
  }
}
