/** Label handoff: recorded clocks only move forward, a spent label stays spent, and
    a label mints a run only when no executor owns the task. */
module Labels {
  import opened Model
  import opened Decide
  import opened Routing
  import opened Orchestrator
  import opened Ledgers
  import opened Invariants
  import opened Primitives
  import opened CommandPlans
  import opened RequestPlans
  import opened Machine
  import opened Frames
  import opened Theorems

  function RoutingOf(task: Option<Task>): Option<ProviderRouting> {
    if task.Some? then task.value.providerRouting else None
  }

  /** A record is kept, or replaced by one with a later clock. */
  ghost predicate RoutingMoves(before: Option<ProviderRouting>, after: Option<ProviderRouting>) {
    before.Some? ==>
      after.Some? && (after == before || before.value.requestedAt < after.value.requestedAt)
  }

  // ------------------------------------------------------------------------- requests

  lemma LabelRouting(given: RequestArgs, task: Option<Task>, active: Option<Run>, admitted: Pipeline,
                     intent: LabelRequest,
                     evidence: RoutingEvidence, d: Decision)
    requires DecideLabelProviderRequest(given, task, active, admitted, intent, evidence) == Decided(d)
    ensures RoutingMoves(RoutingOf(task), d.task.providerRouting)
    ensures || (RoutingOf(task).Some? && RoutingOf(task).value.requestId == given.requestId
                && d == Decision(task.value, None, None, []))
            || (d.task.providerRouting.Some? && d.task.providerRouting.value.requestId == given.requestId
                && d.task.providerRouting.value.requestedAt == intent.requestedAt)
  {
  }

  lemma CancelThenRequest(now: int, t: Task, run: Run, note: Option<Note>, a: RequestArgs)
    requires CancelRun(now, t, run, note, None).Decided?
    requires RequestRun(a, Some(CancelRun(now, t, run, note, None).decision.task), None).Decided?
    ensures RequestRun(a, Some(CancelRun(now, t, run, note, None).decision.task), None).decision.task.providerRouting
         == t.providerRouting
  {
    var c := CancelRun(now, t, run, note, None).decision.task;
    RequestFrame(a, c, None, RequestRun(a, Some(c), None).decision);
  }

  lemma ReplaceRouting(a: RequestArgs, input: RequestInput, task: Option<Task>, active: Option<Run>, d: Decision)
    requires input.replaceQueuedRunId.Some? && ReplaceQueuedRun(a, input, task, active) == Decided(d)
    ensures task.Some? && d.task.providerRouting == task.value.providerRouting
  {
    CancelThenRequest(a.now, task.value, active.value, Some(QueuedSwitch(input.pipeline)), a);
  }

  lemma RevisionRouting(a: RequestArgs, t: Task, active: Option<Run>, d: Decision)
    requires a.sourceRevision.Some? && RequestRevisionRun(a, Some(t), active) == Decided(d)
    ensures d.task.providerRouting == t.providerRouting
  {
    RevisionCases(a, t, active, d);
    if RequestRun(a, Some(t), active) == Decided(d) {
      RequestFrame(a, t, active, d);
    } else if SupersedesOwner(a, t, active, d) {
      CancelThenRequest(a.now, DesiredTask(a, t), active.value, Some(SupersededByRevision), a);
    }
  }

  lemma RequestRouting(now: int, input: RequestInput, state: RequestState, d: Decision)
    requires DecideRequest(now, input, state) == Decided(d)
    ensures RoutingMoves(RoutingOf(state.task), d.task.providerRouting)
  {
    var a := ArgsOf(now, input, state);
    RequestCases(now, input, state, d);
    if input.labelIntent.Some? {
      LabelRouting(a, state.task, state.activeRun, AdmittedPipeline(input, state.task), input.labelIntent.value,
                   state.evidence, d);
    } else if state.task.Some? {
      UnlabelledRouting(now, input, state, a, d);
    }
  }

  lemma UnlabelledRouting(now: int, input: RequestInput, state: RequestState, a: RequestArgs, d: Decision)
    requires state.task.Some?
    requires if input.replaceQueuedRunId.Some? then
               ReplaceQueuedRun(a, input, state.task, state.activeRun) == Decided(d)
             else if input.sourceRevision.None? then RequestRun(a, state.task, state.activeRun) == Decided(d)
             else RequestRevisionRun(a.(sourceRevision := input.sourceRevision), state.task,
                                     state.activeRun) == Decided(d)
    ensures d.task.providerRouting == state.task.value.providerRouting
  {
    if input.replaceQueuedRunId.Some? {
      ReplaceRouting(a, input, state.task, state.activeRun, d);
    } else if input.sourceRevision.None? {
      RequestFrame(a, state.task.value, state.activeRun, d);
    } else {
      RevisionRouting(a.(sourceRevision := input.sourceRevision), state.task.value, state.activeRun, d);
    }
  }

  // -------------------------------------------------------------------------- one step

  lemma CommandRouting(l: Ledger, now: int, r: RunId, cmd: RunCommand, cleanupId: string)
    requires Inv(l, now)
    ensures RoutingOf(TransactRun(l, now, r, cmd, cleanupId).task) == RoutingOf(l.task)
  {
    var o := RunOutcome(l, now, r, cmd, cleanupId);
    if o.Decided? {
      ReadsHeld(l, r, now);
      OnRunFrame(now, l.task.value, l.runs[r], cmd, cleanupId, o.decision);
    }
  }

  lemma RequestStepRouting(l: Ledger, now: int, input: RequestInput)
    ensures RoutingMoves(RoutingOf(l.task), RoutingOf(TransactRequest(l, now, input).task))
  {
    RequestWrites(l, now, input);
    var o := RequestOutcome(l, now, input);
    if o.Decided? { RequestRouting(now, input, Snapshot(l, input, ResolvedRequestId(l, input).value), o.decision); }
  }

  lemma UpkeepRouting(l: Ledger, now: int, event: Event)
    ensures RoutingOf(Upkeep(l, now, event).task) == RoutingOf(l.task)
  {
  }

  /** Every step keeps the routing record or moves its clock strictly forward. */
  lemma StepRouting(l: Ledger, tick: Tick, clock: int)
    requires Inv(l, clock) && clock <= tick.now && Admissible(l.id, tick.event)
    ensures RoutingMoves(RoutingOf(l.task), RoutingOf(Step(l, tick).task))
  {
    InvLater(l, clock, tick.now);
    match tick.event {
      case Requested(input) => RequestStepRouting(l, tick.now, input);
      case OnRun(r, cmd, cleanupId) => CommandRouting(l, tick.now, r, cmd, cleanupId);
      case _ => UpkeepRouting(l, tick.now, tick.event);
    }
  }

  // --------------------------------------------------------------------- over histories

  /** Recorded label clocks strictly increase over every history: an equal clock is
      the same record. */
  lemma {:induction false} LabelClocksIncrease(l: Ledger, trace: seq<Tick>, clock: int)
    requires Inv(l, clock) && Timely(l.id, clock, trace)
    ensures RoutingMoves(RoutingOf(l.task), RoutingOf(Exec(l, trace).task))
    decreases |trace|
  {
    if trace != [] {
      var k, rest := Step(l, trace[0]), trace[1..];
      StepRouting(l, trace[0], clock);
      StepPreserves(l, trace[0], clock);
      LabelClocksIncrease(k, rest, trace[0].now);
      assert Exec(l, trace) == Exec(k, rest);
    }
  }

  /** The clock on record covers the label. */
  ghost predicate Covers(l: Ledger, intent: LabelRequest) {
    RoutingOf(l.task).Some? && intent.requestedAt <= RoutingOf(l.task).value.requestedAt
  }

  /** The checks a request passes before its label is looked at. */
  predicate PassesGuards(l: Ledger, input: RequestInput) {
    && (l.task.Some? && input.isStoredWorkCompatible.Some? ==> input.isStoredWorkCompatible.value(l.task.value))
    && RevisionReceipt(l, input).None?
    && (input.expectedEffectivePipeline.Some? ==>
          input.expectedEffectivePipeline.value == EffectivePipeline(input, l.task))
    && (input.isPipelineAuthorized.Some? ==> input.isPipelineAuthorized.value(EffectivePipeline(input, l.task)))
    && ResolvedRequestId(l, input).Some? && PreviousRun(l, ResolvedRequestId(l, input).value).None?
  }

  /** The label is looked at, and is not the one on record under this request id. */
  predicate ReachesRouting(l: Ledger, input: RequestInput) {
    && PassesGuards(l, input) && l.id.Github?
    && (RoutingOf(l.task).Some? ==>
          RoutingOf(l.task).value.requestId != Raw(ResolvedRequestId(l, input).value))
  }

  /** Guarded out, a label is refused; else routing decides it. */
  lemma GuardsDecide(l: Ledger, now: int, input: RequestInput, requestId: string)
    requires input.labelIntent.Some? && ResolvedRequestId(l, input) == Some(requestId)
    ensures var state := Snapshot(l, input, requestId);
            var o := DecideRequest(now, input, state);
            if PassesGuards(l, input) then
              o == DecideLabelProviderRequest(ArgsOf(now, input, state), l.task, ActiveRun(l),
                                              AdmittedPipeline(input, l.task), input.labelIntent.value, state.evidence)
            else o.Refused?
  {
  }

  /** How routing answers a label, by what is on record. */
  lemma RoutingAnswers(given: RequestArgs, task: Option<Task>, active: Option<Run>, admitted: Pipeline,
                       intent: LabelRequest, evidence: RoutingEvidence)
    ensures var o := DecideLabelProviderRequest(given, task, active, admitted, intent, evidence);
            if given.taskId.Work? then o.Refused?
            else if RoutingOf(task).Some? && RoutingOf(task).value.requestId == given.requestId then
              o == Decided(Decision(task.value, None, None, []))
            else if LabelIsStale(task, intent) then o.Refused?
            else if o.Decided? then
              o.decision.task.providerRouting.Some?
              && o.decision.task.providerRouting.value.requestedAt == intent.requestedAt
              && (task.Some? || o.decision.run.Some?)
            else o.Threw? || task.None?
  {
  }

  /** The request minted a run for its label. */
  predicate Accepted(o: Outcome) {
    o.Decided? && o.decision.run.Some?
  }

  /** An answered label leaves its clock covered exactly when it was covered before, it
      was accepted, or its task exists and the label itself was looked at. */
  lemma CoveredExactly(l: Ledger, now: int, input: RequestInput)
    requires input.labelIntent.Some? && input.taskId == l.id && !RequestOutcome(l, now, input).Threw?
    ensures Covers(TransactRequest(l, now, input), input.labelIntent.value) <==>
              || Covers(l, input.labelIntent.value)
              || Accepted(RequestOutcome(l, now, input))
              || (l.task.Some? && ReachesRouting(l, input))
  {
    RequestWrites(l, now, input);
    var requestId := ResolvedRequestId(l, input).value;
    var state := Snapshot(l, input, requestId);
    GuardsDecide(l, now, input, requestId);
    RoutingAnswers(ArgsOf(now, input, state), l.task, ActiveRun(l), AdmittedPipeline(input, l.task),
                   input.labelIntent.value, state.evidence);
  }

  /** A covered label decides nothing new. */
  lemma CoveredLabelMintsNothing(l: Ledger, now: int, input: RequestInput)
    requires input.labelIntent.Some? && Covers(l, input.labelIntent.value)
    ensures !Accepted(RequestOutcome(l, now, input))
    ensures var k := TransactRequest(l, now, input);
            k.runs == l.runs && k.task == l.task && k.outbox == l.outbox
  {
    RequestWrites(l, now, input);
    var o := RequestOutcome(l, now, input);
    if o.Decided? {
      var state := Snapshot(l, input, ResolvedRequestId(l, input).value);
      RequestCases(now, input, state, o.decision);
      CoveredDecision(ArgsOf(now, input, state), l.task, ActiveRun(l), AdmittedPipeline(input, l.task),
                      input.labelIntent.value, state.evidence, o.decision);
    }
  }

  lemma CoveredDecision(given: RequestArgs, task: Option<Task>, active: Option<Run>, admitted: Pipeline,
                        intent: LabelRequest, evidence: RoutingEvidence, d: Decision)
    requires RoutingOf(task).Some? && intent.requestedAt <= RoutingOf(task).value.requestedAt
    requires DecideLabelProviderRequest(given, task, active, admitted, intent, evidence) == Decided(d)
    ensures d == Decision(task.value, None, None, [])
  {
  }

  /** What no later history undoes: a covered clock, a key or a revision that is taken, and
      a task that takes no labels. */
  ghost predicate Spent(l: Ledger, input: RequestInput)
    requires input.labelIntent.Some?
  {
    || Covers(l, input.labelIntent.value)
    || l.id.Work?
    || RevisionReceipt(l, input).Some?
    || (Bound(l, input) && ResolvedRequestId(l, input).Some?
        && CallerKey(l, ResolvedRequestId(l, input).value) in l.requestRuns)
  }

  /** A request that is not decided writes no run and no task. */
  lemma UndecidedWritesNothing(l: Ledger, now: int, input: RequestInput)
    requires !RequestOutcome(l, now, input).Decided?
    ensures var k := TransactRequest(l, now, input); k.runs == l.runs && k.task == l.task
  {
    RequestWrites(l, now, input);
  }

  /** A native task, or a receipted revision, never has its label looked at. */
  lemma UnreachableUndecided(l: Ledger, now: int, input: RequestInput)
    requires input.labelIntent.Some? && input.taskId == l.id && (l.id.Work? || RevisionReceipt(l, input).Some?)
    ensures !RequestOutcome(l, now, input).Decided?
  {
    if ResolvedRequestId(l, input).Some? {
      var requestId := ResolvedRequestId(l, input).value;
      var state := Snapshot(l, input, requestId);
      GuardsDecide(l, now, input, requestId);
      RoutingAnswers(ArgsOf(now, input, state), l.task, ActiveRun(l), AdmittedPipeline(input, l.task),
                     input.labelIntent.value, state.evidence);
    }
  }

  lemma TakenKeyUndecided(l: Ledger, trace: seq<Tick>, clock: int, input: RequestInput, requestId: string, now: int)
    requires Inv(l, clock) && Timely(l.id, clock, trace) && Bound(l, input)
    requires ResolvedRequestId(l, input) == Some(requestId) && CallerKey(l, requestId) in l.requestRuns
    ensures !RequestOutcome(Exec(l, trace), now, input).Decided?
  {
    assert GoodKey(l, CallerKey(l, requestId));
    ReplayReturnsOriginal(l, clock, l.requestRuns[CallerKey(l, requestId)], trace, input, requestId, now);
  }

  /** Replaying a spent label never succeeds, whatever happens in between. */
  lemma ReplayedLabelNeverMints(l: Ledger, trace: seq<Tick>, clock: int, input: RequestInput, now: int)
    requires Inv(l, clock) && Timely(l.id, clock, trace)
    requires input.labelIntent.Some? && input.taskId == l.id && Spent(l, input)
    ensures var k := Exec(l, trace);
            && !Accepted(RequestOutcome(k, now, input))
            && TransactRequest(k, now, input).runs == k.runs && TransactRequest(k, now, input).task == k.task
  {
    var k := Exec(l, trace);
    if Covers(l, input.labelIntent.value) {
      LabelClocksIncrease(l, trace, clock);
      CoveredLabelMintsNothing(k, now, input);
    } else {
      ExecPreserves(l, trace, clock);
      SpentUndecided(l, trace, clock, input, now);
      UndecidedWritesNothing(k, now, input);
    }
  }

  lemma SpentUndecided(l: Ledger, trace: seq<Tick>, clock: int, input: RequestInput, now: int)
    requires Inv(l, clock) && Timely(l.id, clock, trace) && Exec(l, trace).id == l.id
    requires input.labelIntent.Some? && input.taskId == l.id && Spent(l, input)
    requires !Covers(l, input.labelIntent.value)
    ensures !RequestOutcome(Exec(l, trace), now, input).Decided?
  {
    if RevisionReceipt(l, input).Some? { ReceiptsKept(l, trace, input.sourceRevision.value.key); }
    if l.id.Work? || RevisionReceipt(l, input).Some? {
      UnreachableUndecided(Exec(l, trace), now, input);
    } else {
      TakenKeyUndecided(l, trace, clock, input, ResolvedRequestId(l, input).value, now);
    }
  }

  /** An accepted label's record names the run it minted as the task's live run; a
      refused one keeps the generation that was accepted before. */
  lemma LabelRecordsOutcome(given: RequestArgs, task: Option<Task>, active: Option<Run>, admitted: Pipeline,
                            intent: LabelRequest, evidence: RoutingEvidence, d: Decision)
    requires DecideLabelProviderRequest(given, task, active, admitted, intent, evidence) == Decided(d)
    requires active.Some? ==> IsLive(active.value.state)
    ensures d.run.Some? ==>
              && d.task.providerRouting.Some? && d.task.activeRunId == Some(d.run.value.runId)
              && d.task.providerRouting.value.accepted
              && d.task.providerRouting.value.effectivePipeline == d.run.value.pipeline == given.pipeline
              && d.task.providerRouting.value.acceptedGeneration
                 == Some(AcceptedGeneration(d.run.value.runId, intent.requestedAt, given.pipeline))
    ensures d.run.None? && d.task.providerRouting != task.value.providerRouting ==>
              && !d.task.providerRouting.value.accepted
              && d.task.providerRouting.value.acceptedGeneration
                 == (if RoutingOf(task).Some? then RoutingOf(task).value.acceptedGeneration else None)
  {
  }

  /** A label mints only on its own authority: it is newer than the latest run unless
      that run is its accepted generation, and it may change the provider only if allowed.
      The successor keeps the priority of the run it follows. */
  lemma LabelNeedsAuthority(given: RequestArgs, task: Option<Task>, active: Option<Run>, admitted: Pipeline,
                            intent: LabelRequest, evidence: RoutingEvidence, d: Decision)
    requires DecideLabelProviderRequest(given, task, active, admitted, intent, evidence) == Decided(d) && d.run.Some?
    ensures task.Some? ==>
              && evidence.latestRun.Some?
              && (given.pipeline == admitted || intent.allowProviderChange)
              && (evidence.latestRun.value.createdAt < intent.requestedAt
                  || (RoutingOf(task).Some? && RoutingOf(task).value.acceptedGeneration.Some?
                      && RoutingOf(task).value.acceptedGeneration.value.runId == evidence.latestRun.value.runId))
              && d.run.value.priority
                 == (if active.Some? then active.value.priority else evidence.latestRun.value.priority)
  {
  }

  // ------------------------------------------------------------------------ ownership

  lemma UnblockedLabel(given: RequestArgs, task: Option<Task>, active: Option<Run>, admitted: Pipeline,
                       intent: LabelRequest, evidence: RoutingEvidence, d: Decision)
    requires DecideLabelProviderRequest(given, task, active, admitted, intent, evidence) == Decided(d) && d.run.Some?
    ensures task.Some? ==> evidence.retainedClaims == Some({}) && task.value.closedAt.None?
  {
  }

  /** A label mints a successor only when no run of the task is claimed while live
      or while holding a credential operation; a truncated inventory never mints. */
  lemma LabelMintsUnowned(l: Ledger, now: int, input: RequestInput, d: Decision)
    requires MutexInv(l) && input.labelIntent.Some?
    requires RequestOutcome(l, now, input) == Decided(d) && d.run.Some?
    ensures PhysicalOwners(l) == {}
    ensures forall r | r in l.runs && IsClaimed(l.runs[r]) ::
              !IsLive(l.runs[r].state) && l.runs[r].credentialOperation.None?
    ensures l.task.Some? ==> |set r | r in l.runs && IsClaimed(l.runs[r])| <= 1000
  {
    forall r | r in l.runs && IsClaimed(l.runs[r]) && PhysicalOwners(l) == {}
      ensures !IsLive(l.runs[r].state) && l.runs[r].credentialOperation.None?
    {
      assert r !in PhysicalOwners(l);
    }
    var state := Snapshot(l, input, ResolvedRequestId(l, input).value);
    RequestCases(now, input, state, d);
    UnblockedLabel(ArgsOf(now, input, state), l.task, ActiveRun(l), AdmittedPipeline(input, l.task),
                   input.labelIntent.value, state.evidence, d);
    if l.task.None? { UnknownTaskIsUnowned(l); }
  }

  lemma UnknownTaskIsUnowned(l: Ledger)
    requires MutexInv(l) && l.task.None?
    ensures PhysicalOwners(l) == {}
  {
    if r :| r in l.runs { assert false; }
  }
}
