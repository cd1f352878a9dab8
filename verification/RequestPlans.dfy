/** Every accepted request is a lawful commit. */
module RequestPlans {
  import opened Model
  import opened Decide
  import opened Routing
  import opened Orchestrator
  import opened Ledgers
  import opened Invariants
  import opened Primitives
  import opened TouchSteps
  import opened MintSteps
  import opened Lawful
  import opened CommandPlans

  /** What admission adapters guarantee: fresh authorizations list distinct
      pipelines, and a source revision is requested under its own key alone. */
  ghost predicate GoodInput(input: RequestInput) {
    && (forall p :: ChosenFallback(input, p).Some? ==>
          ChosenFallback(input, p).value.Authorized? && Unique(ChosenFallback(input, p).value.pipelines))
    && (input.sourceRevision.Some? ==>
          input.requestBinding.None? && forall p :: ChosenFallback(input, p).None?)
  }

  /** A request mints, changes the task, or replaces a run that no executor claimed. */
  ghost predicate Admits(l: Ledger, d: Decision, plan: Plan, now: int) {
    && Follows(l, d, plan, now)
    && (plan.MintPlan? || plan.TaskPlan? || (plan.JoinPlan? && !IsClaimed(l.runs[plan.run])))
  }

  lemma ArgsAreGood(now: int, input: RequestInput, state: RequestState)
    requires GoodInput(input)
    ensures GoodArgs(ArgsOf(now, input, state), now)
    ensures input.sourceRevision.Some? ==> ArgsOf(now, input, state).providerFallback.None?
  {
  }

  /** An idle task has no active run, so a request mints. */
  lemma MintRequestPlan(l: Ledger, a: RequestArgs, now: int, d: Decision)
    requires Inv(l, now) && NewRequest(l, a) && GoodArgs(a, now)
    requires RequestRun(a, l.task, ActiveRun(l)) == Decided(d)
    ensures ActiveRun(l).None? && Mints(l, d, now)
  {
    assert l.task.Some? && l.task.value.activeRunId.Some? ==> RunLocked(l, l.task.value.activeRunId.value);
    RequestRunMints(l, a, now);
  }

  /** A canceled owner, then the request that replaces it. */
  lemma ReplacePlan(l: Ledger, r: RunId, touch: Decision, a: RequestArgs, now: int, mint: Decision)
    requires Reads(l, r, now) && Active(l, r) && NewRequest(l, a) && GoodArgs(a, now) && a.requestSource.Caller?
    requires Touches(l.task.value, l.runs[r], touch, now) && Settles(l.runs[r], touch.run.value)
    requires RequestRun(a, Some(touch.task), None) == Decided(mint)
    ensures TouchThenMint(l, r, touch, mint, now)
  {
    var k := Commit(l, touch);
    assert RunLocked(l, r) && Indexed(l, r);
    TouchedLedger(l, k, r, touch, now);
    StillNew(l, k, r, a);
    RequestRunMints(k, a, now);
  }

  lemma StillNew(l: Ledger, k: Ledger, r: RunId, a: RequestArgs)
    requires Rewrites(l, k, r) && NewRequest(l, a) && a.requestSource.Caller?
    ensures NewRequest(k, a)
  {
    forall o | o in k.runs && a.sourceRevision.Some? ensures !Carries(k.runs[o], a.sourceRevision.value.key) {
      assert !Carries(l.runs[o], a.sourceRevision.value.key);
    }
  }

  /** The active run, when there is one, is live and holds the lock. */
  lemma ActiveIsLive(l: Ledger, now: int)
    requires Inv(l, now)
    ensures ActiveRun(l).Some? <==> l.task.Some? && l.task.value.activeRunId.Some?
    ensures ActiveRun(l).Some? ==>
              var r := ActiveRun(l).value.runId;
              r in l.runs && l.runs[r] == ActiveRun(l).value && Active(l, r) && IsLive(l.runs[r].state)
  {
    if l.task.Some? && l.task.value.activeRunId.Some? {
      assert RunLocked(l, l.task.value.activeRunId.value);
    }
  }

  lemma ReplaceQueuedPlan(l: Ledger, a: RequestArgs, input: RequestInput, now: int, d: Decision) returns (plan: Plan)
    requires Inv(l, now) && NewRequest(l, a) && GoodArgs(a, now) && a.requestSource.Caller?
    requires input.replaceQueuedRunId.Some? && ReplaceQueuedRun(a, input, l.task, ActiveRun(l)) == Decided(d)
    ensures Admits(l, d, plan, now)
  {
    ActiveIsLive(l, now);
    var r := ActiveRun(l).value.runId;
    var note := Some(QueuedSwitch(input.pipeline));
    ReadsHeld(l, r, now);
    CancelTouches(now, l.task.value, l.runs[r], note, None);
    var touch := CancelRun(now, l.task.value, l.runs[r], note, None).decision;
    var mint := RequestRun(a, Some(touch.task), None).decision;
    ReplacePlan(l, r, touch, a, now, mint);
    plan := JoinPlan(r, touch, mint);
  }

  // ------------------------------------------------------------- source revisions

  /** A request reads from the released task only what cancellation keeps. */
  lemma RevisionMintIgnoresDesire(a: RequestArgs, t: Task, desired: Option<WorkRevision>, observed: Option<map<string,
                                  int>>)
    ensures RequestRun(a, Some(t), None)
         == RequestRun(a, Some(t.(desiredRevision := desired, sourceObservedAt := observed)), None)
  {
  }

  lemma SupersedePlan(l: Ledger, a: RequestArgs, now: int, desired: Task, mint: Decision) returns (plan: Plan)
    requires Inv(l, now) && NewRequest(l, a) && GoodArgs(a, now) && a.requestSource.Caller?
    requires l.task.Some? && ActiveRun(l).Some? && !IsClaimed(ActiveRun(l).value)
    requires desired == l.task.value.(desiredRevision := desired.desiredRevision,
                                      sourceObservedAt := desired.sourceObservedAt, updatedAt := now)
    requires CancelRun(now, desired, ActiveRun(l).value, Some(SupersededByRevision), None).Decided?
    requires var canceled := CancelRun(now, desired, ActiveRun(l).value, Some(SupersededByRevision), None).decision;
             RequestRun(a, Some(canceled.task), None) == Decided(mint)
    ensures var canceled := CancelRun(now, desired, ActiveRun(l).value, Some(SupersededByRevision), None).decision;
            Admits(l, Joined(canceled, mint), plan, now)
  {
    ActiveIsLive(l, now);
    var r := ActiveRun(l).value.runId;
    ReadsHeld(l, r, now);
    CancelTouches(now, l.task.value, l.runs[r], Some(SupersededByRevision), None);
    var touch := CancelRun(now, l.task.value, l.runs[r], Some(SupersededByRevision), None).decision;
    RevisionMintIgnoresDesire(a, touch.task, desired.desiredRevision, desired.sourceObservedAt);
    ReplacePlan(l, r, touch, a, now, mint);
    plan := JoinPlan(r, touch, mint);
  }

  function DesiredTask(a: RequestArgs, t: Task): Task
    requires a.sourceRevision.Some?
  {
    t.(desiredRevision := a.sourceRevision,
       sourceObservedAt := if a.sourceRevision.value.observedAt.Some? then a.sourceRevision.value.observedAt
                           else t.sourceObservedAt,
       updatedAt := a.now)
  }

  /** The unclaimed owner is canceled and its replacement minted. */
  ghost predicate SupersedesOwner(a: RequestArgs, t: Task, active: Option<Run>, d: Decision)
    requires a.sourceRevision.Some?
  {
    && active.Some? && !IsClaimed(active.value)
    && (var canceled := CancelRun(a.now, DesiredTask(a, t), active.value, Some(SupersededByRevision), None);
        canceled.Decided?
        && (var next := RequestRun(a, Some(canceled.decision.task), None);
            next.Decided? && d == Joined(canceled.decision, next.decision)))
  }

  /** The branches of a revision request on an existing task. */
  ghost predicate RevisionBranch(a: RequestArgs, t: Task, active: Option<Run>, d: Decision)
    requires a.sourceRevision.Some?
  {
    || d == Decision(t, None, None, [])
    || d == Decision(t.(sourceObservedAt := a.sourceRevision.value.observedAt), None, None, [])
    || d == Decision(DesiredTask(a, t), None, None, [])
    || RequestRun(a, Some(t), active) == Decided(d)
    || SupersedesOwner(a, t, active, d)
  }

  lemma RevisionCases(a: RequestArgs, t: Task, active: Option<Run>, d: Decision)
    requires a.sourceRevision.Some? && RequestRevisionRun(a, Some(t), active) == Decided(d)
    ensures RevisionBranch(a, t, active, d)
  {
  }

  /** The revision asked for is new to the ledger and already receipted in it. */
  ghost predicate NewRevision(l: Ledger, a: RequestArgs, d: Decision) {
    && a.sourceRevision.Some?
    && a.requestId == Raw(a.sourceRevision.value.key) && a.requestSource.Caller? && a.taskId == l.id
    && Unminted(l, a.sourceRevision.value.key)
    && (d.task.desiredRevision == a.sourceRevision ==> a.sourceRevision.value.key in l.sourceRevisions)
  }

  lemma MintedDesire(a: RequestArgs, task: Option<Task>, active: Option<Run>, d: Decision)
    requires RequestRun(a, task, active) == Decided(d)
    ensures d.task.desiredRevision == a.sourceRevision
  {
  }

  lemma RevisionPlan(l: Ledger, a: RequestArgs, now: int, d: Decision) returns (plan: Plan)
    requires Inv(l, now) && GoodArgs(a, now) && NewRevision(l, a, d)
    requires RequestRevisionRun(a, l.task, ActiveRun(l)) == Decided(d)
    ensures Admits(l, d, plan, now)
  {
    if l.task.None? {
      MintedDesire(a, None, ActiveRun(l), d);
      MintRequestPlan(l, a, now, d);
      plan := MintPlan;
    } else {
      RevisionCases(a, l.task.value, ActiveRun(l), d);
      plan := ExistingRevisionPlan(l, a, now, d);
    }
  }

  lemma ExistingRevisionPlan(l: Ledger, a: RequestArgs, now: int, d: Decision) returns (plan: Plan)
    requires Inv(l, now) && GoodArgs(a, now) && NewRevision(l, a, d)
    requires l.task.Some? && RevisionBranch(a, l.task.value, ActiveRun(l), d)
    ensures Admits(l, d, plan, now)
  {
    if RequestRun(a, l.task, ActiveRun(l)) == Decided(d) {
      MintedDesire(a, l.task, ActiveRun(l), d);
      MintRequestPlan(l, a, now, d);
      plan := MintPlan;
    } else if SupersedesOwner(a, l.task.value, ActiveRun(l), d) {
      plan := SupersededPlan(l, a, now, d);
    } else {
      RevisionChange(l, a, d);
      plan := TaskPlan;
    }
  }

  /** A revision that mints nothing changes what the task desires, or when it was seen. */
  lemma RevisionChange(l: Ledger, a: RequestArgs, d: Decision)
    requires MutexInv(l) && NewRevision(l, a, d) && l.task.Some?
    requires || d == Decision(l.task.value, None, None, [])
             || d == Decision(l.task.value.(sourceObservedAt := a.sourceRevision.value.observedAt), None, None, [])
             || d == Decision(DesiredTask(a, l.task.value), None, None, [])
    ensures TaskChange(l, d)
  {
  }

  /** The owner that a newer revision replaces. */
  lemma SupersededPlan(l: Ledger, a: RequestArgs, now: int, d: Decision) returns (plan: Plan)
    requires Inv(l, now) && GoodArgs(a, now) && NewRevision(l, a, d)
    requires l.task.Some? && SupersedesOwner(a, l.task.value, ActiveRun(l), d)
    ensures Admits(l, d, plan, now)
  {
    var desired := DesiredTask(a, l.task.value);
    var canceled := CancelRun(a.now, desired, ActiveRun(l).value, Some(SupersededByRevision), None);
    var next := RequestRun(a, Some(canceled.decision.task), None);
    MintedDesire(a, Some(canceled.decision.task), None, next.decision);
    plan := SupersedePlan(l, a, now, desired, next.decision);
  }

  // --------------------------------------------------------------- label handoff

  lemma MintsRouted(l: Ledger, d: Decision, routing: Option<ProviderRouting>, now: int)
    requires Mints(l, d, now)
    ensures Mints(l, d.(task := d.task.(providerRouting := routing)), now)
  {
    var e := d.(task := d.task.(providerRouting := routing));
    assert FreshKey(l, e, KeyOf(d.run.value));
  }

  /** An attempt either mints, or hands over a queued owner that reports nothing. */
  lemma LabelAttemptPlan(l: Ledger, a: RequestArgs, now: int, admitted: Pipeline, d: Decision) returns (plan: Plan)
    requires Inv(l, now) && NewRequest(l, a) && GoodArgs(a, now) && a.requestSource.Caller?
    requires LabelAttempt(a, l.task, ActiveRun(l), admitted) == Decided(d)
    ensures Admits(l, d, plan, now) && (plan.MintPlan? || plan.JoinPlan?)
  {
    ActiveIsLive(l, now);
    if l.task.Some? && ActiveRun(l).Some? && IsLive(ActiveRun(l).value.state) && a.pipeline != admitted {
      plan := HandoffPlan(l, a, now, d);
    } else {
      MintRequestPlan(l, a, now, d);
      plan := MintPlan;
    }
  }

  lemma HandoffPlan(l: Ledger, a: RequestArgs, now: int, d: Decision) returns (plan: Plan)
    requires Inv(l, now) && NewRequest(l, a) && GoodArgs(a, now) && a.requestSource.Caller?
    requires l.task.Some? && ActiveRun(l).Some? && !IsClaimed(ActiveRun(l).value)
    requires var canceled := CancelRun(a.now, l.task.value, ActiveRun(l).value, Some(LabelHandoff(a.pipeline)), None);
             canceled.Decided?
             && var successor := RequestRun(a, Some(canceled.decision.task), None);
                successor.Decided? && d == Joined(canceled.decision.(outbox := []), successor.decision)
    ensures Admits(l, d, plan, now) && plan.JoinPlan?
  {
    ActiveIsLive(l, now);
    var r := ActiveRun(l).value.runId;
    ReadsHeld(l, r, now);
    HandoffTouches(now, l.task.value, l.runs[r], a.pipeline);
    var touch := CancelRun(now, l.task.value, l.runs[r], Some(LabelHandoff(a.pipeline)), None).decision.(outbox := []);
    var mint := RequestRun(a, Some(touch.task), None).decision;
    ReplacePlan(l, r, touch, a, now, mint);
    plan := JoinPlan(r, touch, mint);
  }

  lemma AcceptedLabelPlan(l: Ledger, d: Decision, plan: Plan, routing: Option<ProviderRouting>, now: int)
    returns (next: Plan)
    requires Admits(l, d, plan, now) && (plan.MintPlan? || plan.JoinPlan?)
    ensures Admits(l, d.(task := d.task.(providerRouting := routing)), next, now)
  {
    if plan.MintPlan? {
      MintsRouted(l, d, routing, now);
      next := MintPlan;
    } else {
      MintsRouted(Commit(l, plan.touch), plan.mint, routing, now);
      next := JoinPlan(plan.run, plan.touch,
                       plan.mint.(task := plan.mint.task.(providerRouting := routing)));
    }
  }

  lemma LabelCases(given: RequestArgs, task: Option<Task>, active: Option<Run>, admitted: Pipeline,
                   intent: LabelRequest,
                   evidence: RoutingEvidence, d: Decision)
    requires DecideLabelProviderRequest(given, task, active, admitted, intent, evidence) == Decided(d)
    ensures var a := given.(priority := LabelPriority(active, evidence.latestRun, given.priority));
            || (task.Some? && d == Decision(task.value.(providerRouting := d.task.providerRouting,
                                                        updatedAt := d.task.updatedAt), None, None, []))
            || (LabelAttempt(a, task, active, admitted).Decided?
                && var attempt := LabelAttempt(a, task, active, admitted).decision;
                   d == attempt.(task := attempt.task.(providerRouting := d.task.providerRouting)))
  {
  }

  lemma LabelPlan(l: Ledger, given: RequestArgs, now: int, admitted: Pipeline, intent: LabelRequest,
                  evidence: RoutingEvidence, d: Decision) returns (plan: Plan)
    requires Inv(l, now) && NewRequest(l, given) && GoodArgs(given, now) && given.requestSource.Caller?
    requires DecideLabelProviderRequest(given, l.task, ActiveRun(l), admitted, intent, evidence) == Decided(d)
    ensures Admits(l, d, plan, now)
  {
    var a := given.(priority := LabelPriority(ActiveRun(l), evidence.latestRun, given.priority));
    LabelCases(given, l.task, ActiveRun(l), admitted, intent, evidence, d);
    if d.run.None? && l.task.Some? && d == Decision(l.task.value.(providerRouting := d.task.providerRouting,
                                                                  updatedAt := d.task.updatedAt), None, None, []) {
      plan := TaskPlan;
    } else {
      var attempt := LabelAttempt(a, l.task, ActiveRun(l), admitted).decision;
      plan := LabelAttemptPlan(l, a, now, admitted, attempt);
      plan := AcceptedLabelPlan(l, attempt, plan, d.task.providerRouting, now);
    }
  }

  // ------------------------------------------------------------------ all requests

  /** The ledger a decided request commits to: its binding and receipt are recorded. */
  function Recorded(l: Ledger, input: RequestInput, d: Decision): Ledger {
    RecordRevision(RecordBinding(l, input), input, d)
  }

  lemma RecordedExtends(l: Ledger, input: RequestInput, d: Decision)
    ensures Extends(l, Recorded(l, input, d)) && ActiveRun(Recorded(l, input, d)) == ActiveRun(l)
    ensures input.sourceRevision.Some? && d.task.desiredRevision == input.sourceRevision ==>
              input.sourceRevision.value.key in Recorded(l, input, d).sourceRevisions
  {
  }

  lemma RecordedPreserves(l: Ledger, input: RequestInput, d: Decision, now: int)
    requires Inv(l, now)
    ensures Inv(Recorded(l, input, d), now)
  {
    RecordedExtends(l, input, d);
    ExtendsPreserves(l, Recorded(l, input, d), now);
  }

  /** A request that reached a decision is not in the history, nor is its revision. */
  lemma DecidedIsNew(l: Ledger, now: int, input: RequestInput, requestId: string, d: Decision)
    requires Inv(l, now) && GoodInput(input) && input.taskId == l.id
    requires ResolvedRequestId(l, input) == Some(requestId)
    requires DecideRequest(now, input, Snapshot(l, input, requestId)) == Decided(d)
    ensures CallerKey(l, requestId) !in l.requestRuns
    ensures input.sourceRevision.Some? ==>
              input.sourceRevision.value.key !in l.sourceRevisions
              && forall r | r in l.runs :: !Carries(l.runs[r], input.sourceRevision.value.key)
  {
    assert forall x | x in l.requestRuns :: GoodKey(l, x);
  }

  /** Which admission path decided the request. */
  lemma RequestCases(now: int, input: RequestInput, state: RequestState, d: Decision)
    requires DecideRequest(now, input, state) == Decided(d)
    ensures var a := ArgsOf(now, input, state);
            if input.labelIntent.Some? then
              DecideLabelProviderRequest(a, state.task, state.activeRun, AdmittedPipeline(input, state.task),
                                         input.labelIntent.value, state.evidence) == Decided(d)
            else if input.replaceQueuedRunId.Some? then
              ReplaceQueuedRun(a, input, state.task, state.activeRun) == Decided(d)
            else if input.sourceRevision.None? then RequestRun(a, state.task, state.activeRun) == Decided(d)
            else RequestRevisionRun(a.(sourceRevision := input.sourceRevision), state.task,
                                    state.activeRun) == Decided(d)
  {
  }

  /** Every accepted request is lawful on the ledger that records it. */
  lemma RequestOutcomePlan(l: Ledger, now: int, input: RequestInput, d: Decision) returns (plan: Plan)
    requires Inv(l, now) && GoodInput(input) && input.taskId == l.id
    requires RequestOutcome(l, now, input) == Decided(d)
    ensures Inv(Recorded(l, input, d), now) && Admits(Recorded(l, input, d), d, plan, now)
  {
    var requestId := ResolvedRequestId(l, input).value;
    var state := Snapshot(l, input, requestId);
    var a := ArgsOf(now, input, state);
    var k := Recorded(l, input, d);
    RecordedExtends(l, input, d);
    RecordedPreserves(l, input, d, now);
    DecidedIsNew(l, now, input, requestId, d);
    RequestCases(now, input, state, d);
    ArgsAreGood(now, input, state);
    plan := AdmissionPlan(k, a, now, input, state.evidence, d);
  }

  lemma AdmissionPlan(k: Ledger, a: RequestArgs, now: int, input: RequestInput, evidence: RoutingEvidence, d: Decision)
    returns (plan: Plan)
    requires Inv(k, now) && GoodArgs(a, now) && a.requestSource.Caller? && a.taskId == k.id && a.requestId.Raw?
    requires a.sourceRevision.None? && RequestKey(k.id, Caller, a.requestId) !in k.requestRuns
    requires input.sourceRevision.Some? ==>
               a.providerFallback.None? && a.requestId == Raw(input.sourceRevision.value.key)
               && NewRevision(k, a.(sourceRevision := input.sourceRevision), d)
    requires if input.labelIntent.Some? then
               DecideLabelProviderRequest(a, k.task, ActiveRun(k), AdmittedPipeline(input, k.task),
                                          input.labelIntent.value, evidence) == Decided(d)
             else if input.replaceQueuedRunId.Some? then ReplaceQueuedRun(a, input, k.task, ActiveRun(k)) == Decided(d)
             else if input.sourceRevision.None? then RequestRun(a, k.task, ActiveRun(k)) == Decided(d)
             else RequestRevisionRun(a.(sourceRevision := input.sourceRevision), k.task, ActiveRun(k)) == Decided(d)
    ensures Admits(k, d, plan, now)
  {
    if input.labelIntent.Some? {
      plan := LabelPlan(k, a, now, AdmittedPipeline(input, k.task), input.labelIntent.value, evidence, d);
    } else if input.replaceQueuedRunId.Some? {
      plan := ReplaceQueuedPlan(k, a, input, now, d);
    } else if input.sourceRevision.None? {
      MintRequestPlan(k, a, now, d);
      plan := MintPlan;
    } else {
      plan := RevisionPlan(k, a.(sourceRevision := input.sourceRevision), now, d);
    }
  }
}
