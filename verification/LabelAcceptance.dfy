/** Exactly when a label is accepted: what the ledger and the request must be like for a
    label to mint its run. */
module LabelAcceptance {
  import opened Model
  import opened Decide
  import opened Routing
  import opened Orchestrator
  import opened Ledgers
  import opened Invariants
  import opened Primitives
  import opened RequestPlans
  import opened Admission
  import opened Labels

  // ------------------------------------------------------------------------ the decision

  /** The lock is free, or held by a queued run of another pipeline that can be canceled. */
  predicate GivesWay(active: Option<Run>, pipeline: Pipeline, admitted: Pipeline) {
    active.Some? && IsLive(active.value.state) ==>
      pipeline != admitted && IsQueued(active.value) && active.value.credentialOperation.None?
  }

  /** The request would be admitted if the lock were free. */
  predicate WouldBeAdmitted(a: RequestArgs, task: Option<Task>) {
    && SameSource(task, GivenIssue(a.issue))
    && if task.None? then a.work.Some?
       else task.value.closedAt.None? && DeliveryAdmits(task.value, a.requestSource, a.params)
  }

  lemma AttemptDecides(a: RequestArgs, task: Option<Task>, active: Option<Run>, admitted: Pipeline)
    requires active.Some? ==> task.Some? && IsLive(active.value.state)
    ensures LabelAttempt(a, task, active, admitted).Decided?
            <==> GivesWay(active, a.pipeline, admitted) && WouldBeAdmitted(a, task)
  {
    if active.Some? && a.pipeline != admitted {
      var canceled := CancelRun(a.now, task.value, active.value, Some(LabelHandoff(a.pipeline)), None);
      if canceled.Decided? { FreedAdmission(a, task.value, active.value, canceled.decision.task); }
    }
  }

  lemma FreedAdmission(a: RequestArgs, t: Task, owner: Run, freed: Task)
    requires CancelRun(a.now, t, owner, Some(LabelHandoff(a.pipeline)), None).Decided?
    requires freed == CancelRun(a.now, t, owner, Some(LabelHandoff(a.pipeline)), None).decision.task
    ensures RequestRun(a, Some(freed), None).Decided? <==> WouldBeAdmitted(a, Some(t))
  {
  }

  /** A decided attempt mints. */
  lemma AttemptMints(a: RequestArgs, task: Option<Task>, active: Option<Run>, admitted: Pipeline)
    ensures LabelAttempt(a, task, active, admitted).Decided? ==>
              LabelAttempt(a, task, active, admitted).decision.run.Some?
  {
  }

  /** Routing mints for a label exactly when it is fresh, unblocked and its attempt decides. */
  lemma RoutingMints(given: RequestArgs, task: Option<Task>, active: Option<Run>, admitted: Pipeline,
                     intent: LabelRequest, evidence: RoutingEvidence)
    requires active.Some? ==> task.Some? && IsLive(active.value.state)
    ensures Accepted(DecideLabelProviderRequest(given, task, active, admitted, intent, evidence)) <==>
              && given.taskId.Github? && !LabelIsStale(task, intent)
              && (RoutingOf(task).Some? ==> RoutingOf(task).value.requestId != given.requestId)
              && !LabelBlocked(given, task, active, admitted, intent, evidence)
              && GivesWay(active, given.pipeline, admitted) && WouldBeAdmitted(given, task)
  {
    var a := given.(priority := LabelPriority(active, evidence.latestRun, given.priority));
    AttemptDecides(a, task, active, admitted);
    AttemptMints(a, task, active, admitted);
  }

  // -------------------------------------------------------------------------- the ledger

  /** The run the task minted last. */
  function LatestRun(l: Ledger): Option<Run> {
    RunAt(l, RunId(l.id, RunCount(l)))
  }

  /** The label is newer than the latest run, or that run is the one the last label won. */
  predicate OutdatesLatest(l: Ledger, intent: LabelRequest) {
    LatestRun(l).Some?
    && (LatestRun(l).value.createdAt < intent.requestedAt
        || (RoutingOf(l.task).Some? && RoutingOf(l.task).value.acceptedGeneration.Some?
            && RoutingOf(l.task).value.acceptedGeneration.value.runId == LatestRun(l).value.runId))
  }

  /** No claimed run is live, or holds an operation. */
  predicate Unowned(l: Ledger) {
    forall r | r in l.runs && IsClaimed(l.runs[r]) ::
      !IsLive(l.runs[r].state) && l.runs[r].credentialOperation.None?
  }

  lemma NobodyOwns(l: Ledger)
    ensures PhysicalOwners(l) == {} <==> Unowned(l)
  {
    forall r | r in l.runs && IsClaimed(l.runs[r]) && PhysicalOwners(l) == {}
      ensures !IsLive(l.runs[r].state) && l.runs[r].credentialOperation.None?
    {
      assert r !in PhysicalOwners(l);
    }
  }

  /** On a known task: a newer label, leave to change the provider if it does, and no
      executor owning a run, by an inventory that is complete. */
  predicate TakesTask(l: Ledger, input: RequestInput)
    requires input.labelIntent.Some?
  {
    && OutdatesLatest(l, input.labelIntent.value)
    && (EffectivePipeline(input, l.task) == AdmittedPipeline(input, l.task)
        || input.labelIntent.value.allowProviderChange)
    && |set r | r in l.runs && IsClaimed(l.runs[r])| <= 1000 && Unowned(l)
  }

  /** Everything a label needs to be accepted. */
  predicate AcceptsLabel(l: Ledger, now: int, input: RequestInput)
    requires input.labelIntent.Some? && ResolvedRequestId(l, input).Some?
  {
    && (input.sourceRevision.Some? ==> input.sourceRevision.value.key == input.requestId)
    && ReachesRouting(l, input) && !LabelIsStale(l.task, input.labelIntent.value)
    && WouldBeAdmitted(ArgsOf(now, input, Snapshot(l, input, ResolvedRequestId(l, input).value)), l.task)
    && (l.task.Some? ==> TakesTask(l, input))
    && GivesWay(ActiveRun(l), EffectivePipeline(input, l.task), AdmittedPipeline(input, l.task))
  }

  /** An open operation makes its run a physical owner. */
  lemma OperationOwns(l: Ledger, clock: int)
    requires RunsInv(l, clock) && PhysicalOwners(l) == {}
    ensures forall r | r in l.runs :: l.runs[r].credentialOperation.None?
  {
    forall r | r in l.runs ensures l.runs[r].credentialOperation.None? {
      assert GoodRun(l.runs[r], clock);
      assert r !in PhysicalOwners(l);
    }
  }

  lemma UnblockedOwners(l: Ledger, clock: int, a: RequestArgs, input: RequestInput)
    requires Inv(l, clock) && l.task.Some? && l.task.value.closedAt.None?
    requires input.labelIntent.Some? && a.pipeline == EffectivePipeline(input, l.task)
    ensures !LabelBlocked(a, l.task, ActiveRun(l), AdmittedPipeline(input, l.task), input.labelIntent.value,
                          Evidence(l, input))
            <==> && OutdatesLatest(l, input.labelIntent.value)
                 && (EffectivePipeline(input, l.task) == AdmittedPipeline(input, l.task)
                     || input.labelIntent.value.allowProviderChange)
                 && |ClaimedRuns(l)| <= 1000 && PhysicalOwners(l) == {}
  {
    ActiveIsLive(l, clock);
    if PhysicalOwners(l) == {} { OperationOwns(l, clock); }
  }

  /** Nothing blocks a label on a known task exactly when it takes the task. */
  lemma UnblockedExactly(l: Ledger, clock: int, a: RequestArgs, input: RequestInput)
    requires Inv(l, clock) && l.task.Some? && l.task.value.closedAt.None?
    requires input.labelIntent.Some? && a.pipeline == EffectivePipeline(input, l.task)
    ensures !LabelBlocked(a, l.task, ActiveRun(l), AdmittedPipeline(input, l.task), input.labelIntent.value,
                          Evidence(l, input))
            <==> TakesTask(l, input)
  {
    UnblockedOwners(l, clock, a, input);
    NobodyOwns(l);
  }

  /** A label is accepted exactly so. */
  lemma AcceptedExactly(l: Ledger, clock: int, now: int, input: RequestInput)
    requires Inv(l, clock) && input.labelIntent.Some? && input.taskId == l.id
    ensures Accepted(RequestOutcome(l, now, input)) <==>
              ResolvedRequestId(l, input).Some? && AcceptsLabel(l, now, input)
  {
    ActiveIsLive(l, clock);
    if ResolvedRequestId(l, input).Some? {
      var requestId := ResolvedRequestId(l, input).value;
      var state := Snapshot(l, input, requestId);
      var a := ArgsOf(now, input, state);
      GuardsDecide(l, now, input, requestId);
      RoutingMints(a, l.task, ActiveRun(l), AdmittedPipeline(input, l.task), input.labelIntent.value, state.evidence);
      if l.task.Some? && l.task.value.closedAt.None? { UnblockedExactly(l, clock, a, input); }
    }
  }
}
