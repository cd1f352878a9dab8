/** Automatic work terminates: losses, fallbacks and reroutes share one budget. */
module Budgets {
  import opened Model
  import opened Decide
  import opened Orchestrator
  import opened Ledgers
  import opened Invariants
  import opened Primitives
  import opened TouchSteps
  import opened Lawful
  import opened CommandPlans
  import opened RequestPlans
  import opened Machine
  import opened Frames
  import opened History

  /** Automatic successors the live run may still lead to. */
  function Budget(l: Ledger): nat {
    if ActiveRun(l).Some? then Fuel(ActiveRun(l).value.providerFallback, l.task.value.consecutiveLost) else 0
  }

  /** The live run works on no source revision; those have their own bound. */
  ghost predicate Unrevised(l: Ledger) {
    ActiveRun(l).Some? ==> ActiveRun(l).value.sourceRevision.None?
  }

  /** Everything but a caller's request and a delivery correction. */
  predicate Automatic(event: Event) {
    !event.Requested? && !(event.OnRun? && IsCorrection(event.cmd))
  }

  ghost predicate Spends(l: Ledger, k: Ledger) {
    RunCount(k) + Budget(k) <= RunCount(l) + Budget(l) && Unrevised(k)
  }

  /** Nothing is minted and the live run, if it still lives, keeps its budget. */
  ghost predicate StandsStill(l: Ledger, k: Ledger) {
    && RunCount(k) == RunCount(l)
    && (ActiveRun(k).Some? ==>
          && ActiveRun(l).Some? && SameIdentity(ActiveRun(l).value, ActiveRun(k).value)
          && k.task.value.consecutiveLost == l.task.value.consecutiveLost)
  }

  lemma StillSpends(l: Ledger, k: Ledger)
    requires StandsStill(l, k) && Unrevised(l)
    ensures Spends(l, k)
  {
  }

  // -------------------------------------------------------------------- one command

  lemma TouchStands(l: Ledger, r: RunId, d: Decision, now: int)
    requires Reads(l, r, now) && Touches(l.task.value, l.runs[r], d, now)
    requires d.task.activeRunId.Some? ==> d.task.consecutiveLost == l.task.value.consecutiveLost
    ensures StandsStill(l, Commit(l, d))
  {
    ReadsHeld(l, r, now);
    ActiveIsLive(l, now);
  }

  lemma TaskStands(l: Ledger, d: Decision, now: int)
    requires Inv(l, now) && TaskChange(l, d)
    requires d.task.activeRunId.Some? ==> d.task.consecutiveLost == l.task.value.consecutiveLost
    ensures StandsStill(l, Commit(l, d))
  {
    ActiveIsLive(l, now);
  }

  /** The minted run holds the lock, on less fuel than its predecessor had. */
  lemma FollowSpends(l: Ledger, r: RunId, touch: Decision, mint: Decision, d: Decision, now: int)
    requires Reads(l, r, now) && Unrevised(l)
    requires TouchThenMint(l, r, touch, mint, now) && d == Followed(touch, mint)
    requires SpendsFuel(l.task.value, l.runs[r], d)
    ensures Spends(l, Commit(l, d))
  {
    ReadsHeld(l, r, now);
    ActiveIsLive(l, now);
    HalvesDiffer(l, r, touch, mint, now);
    assert ActiveRun(l) == Some(l.runs[r]);
    assert ActiveRun(Commit(l, d)) == mint.run;
  }

  lemma PlanSpends(l: Ledger, r: RunId, d: Decision, plan: Plan, now: int)
    requires Reads(l, r, now) && Unrevised(l) && Executes(l, r, d, plan, now)
    requires SpendsFuel(l.task.value, l.runs[r], d)
    ensures Spends(l, Commit(l, d))
  {
    match plan {
      case TouchPlan(_) => TouchStands(l, r, d, now); StillSpends(l, Commit(l, d));
      case TaskPlan => TaskStands(l, d, now); StillSpends(l, Commit(l, d));
      case FollowPlan(_, touch, mint) => FollowSpends(l, r, touch, mint, d, now);
    }
  }

  lemma CommandSpends(l: Ledger, now: int, r: RunId, cmd: RunCommand, cleanupId: string)
    requires Inv(l, now) && Unrevised(l) && !IsCorrection(cmd)
    ensures Spends(l, TransactRun(l, now, r, cmd, cleanupId))
  {
    var o := RunOutcome(l, now, r, cmd, cleanupId);
    if o.Decided? {
      var plan := RunOutcomePlan(l, now, r, cmd, cleanupId);
      ReadsHeld(l, r, now);
      OnRunFrame(now, l.task.value, l.runs[r], cmd, cleanupId, o.decision);
      PlanSpends(l, r, o.decision, plan, now);
    }
  }

  // ----------------------------------------------------------------------- one step

  lemma QueueStands(l: Ledger, now: int, event: Event)
    requires Inv(l, now) && (event.Enqueued? || event.ClaimTaken? || event.ClaimReleased?)
    ensures StandsStill(l, QueueStep(l, now, event))
  {
    var kind := QueueKind(l, now, event);
    UndecidedStands(l, QueueStep(l, now, event), kind, now);
  }

  lemma UndecidedStands(l: Ledger, k: Ledger, kind: Kind, now: int)
    requires Inv(l, now) && StepIs(l, k, kind, now) && !kind.Lawfully?
    ensures StandsStill(l, k)
  {
    if kind.RunWrite? {
      TouchStands(l, kind.run, Decision(l.task.value, Some(kind.after), None, []), now);
    }
  }

  lemma TaskEventStands(l: Ledger, now: int, event: Event)
    requires Inv(l, now)
    ensures StandsStill(l, CommitOutcome(l, TaskOutcome(l, now, event)))
  {
    var o := TaskOutcome(l, now, event);
    if o.Decided? {
      TaskOutcomeChanges(l, now, event);
      TaskStands(l, o.decision, now);
    }
  }

  lemma EntryStands(l: Ledger, now: int, event: Event)
    ensures StandsStill(l, EntryStep(l, now, event))
  {
  }

  lemma UpkeepStands(l: Ledger, now: int, event: Event)
    requires Inv(l, now)
    ensures StandsStill(l, Upkeep(l, now, event))
  {
    if event.Enqueued? || event.ClaimTaken? || event.ClaimReleased? {
      QueueStands(l, now, event);
    } else if event.Closed? || event.WorkUpdated? || event.IssueRefreshed? {
      TaskEventStands(l, now, event);
    } else {
      EntryStands(l, now, event);
    }
  }

  /** Every automatic step pays for the run it mints. */
  lemma StepSpends(l: Ledger, tick: Tick, clock: int)
    requires Inv(l, clock) && clock <= tick.now && Admissible(l.id, tick.event)
    requires Automatic(tick.event) && Unrevised(l)
    ensures Spends(l, Step(l, tick))
  {
    InvLater(l, clock, tick.now);
    if tick.event.OnRun? {
      CommandSpends(l, tick.now, tick.event.run, tick.event.cmd, tick.event.cleanupId);
    } else {
      UpkeepStands(l, tick.now, tick.event);
      StillSpends(l, Step(l, tick));
    }
  }

  // ----------------------------------------------------------------- over histories

  lemma {:induction false} HistorySpends(l: Ledger, trace: seq<Tick>, clock: int)
    requires Inv(l, clock) && Timely(l.id, clock, trace) && Unrevised(l)
    requires forall i | 0 <= i < |trace| :: Automatic(trace[i].event)
    ensures RunCount(Exec(l, trace)) + Budget(Exec(l, trace)) <= RunCount(l) + Budget(l)
    decreases |trace|
  {
    if trace != [] {
      StepSpends(l, trace[0], clock);
      StepPreserves(l, trace[0], clock);
      HistorySpends(Step(l, trace[0]), trace[1..], trace[0].now);
    }
  }

  lemma {:induction false} ElementsBound(pipelines: seq<Pipeline>)
    ensures |Elements(pipelines)| <= |pipelines|
    decreases |pipelines|
  {
    if pipelines != [] {
      var init := pipelines[..|pipelines| - 1];
      assert pipelines == init + [pipelines[|pipelines| - 1]];
      assert Elements(pipelines) == Elements(init) + {pipelines[|pipelines| - 1]};
      ElementsBound(init);
    }
  }

  function AllowedCount(run: Run): nat {
    if run.providerFallback.Some? then |run.providerFallback.value.allowedPipelines| else 0
  }

  /** However its losses, fallbacks and reroutes interleave, the live run leads to
      at most 3 * |allowed| + 2 automatic successors until the next request. */
  lemma AutomaticWorkTerminates(l: Ledger, trace: seq<Tick>, clock: int, r: RunId)
    requires Inv(l, clock) && Timely(l.id, clock, trace)
    requires forall i | 0 <= i < |trace| :: Automatic(trace[i].event)
    requires Active(l, r) && r in l.runs && l.runs[r].sourceRevision.None?
    ensures RunCount(Exec(l, trace)) <= RunCount(l) + 3 * AllowedCount(l.runs[r]) + 2
  {
    HistorySpends(l, trace, clock);
    FuelBound(l.runs[r].providerFallback, l.task.value.consecutiveLost);
  }

  lemma FuelBound(policy: Option<FallbackPolicy>, lost: nat)
    ensures Fuel(policy, lost) <= (if policy.Some? then 3 * |policy.value.allowedPipelines| else 0) + 2
  {
    if policy.Some? {
      ElementsBound(policy.value.allowedPipelines);
      Within(Untried(policy.value), Elements(policy.value.allowedPipelines));
    }
  }

  lemma Within(a: set<Pipeline>, b: set<Pipeline>)
    requires a <= b
    ensures |a| <= |b|
  {
    assert b == a + (b - a);
  }

  /** An idle task mints nothing by itself. */
  lemma IdleStaysIdle(l: Ledger, trace: seq<Tick>, clock: int)
    requires Inv(l, clock) && Timely(l.id, clock, trace)
    requires forall i | 0 <= i < |trace| :: Automatic(trace[i].event)
    requires ActiveRun(l).None?
    ensures RunCount(Exec(l, trace)) == RunCount(l)
  {
    HistorySpends(l, trace, clock);
    TaskForward(l, trace, clock);
  }

  // ----------------------------------------------------------------------- policies

  lemma {:induction false} UniqueCount(pipelines: seq<Pipeline>)
    requires Unique(pipelines)
    ensures |Elements(pipelines)| == |pipelines|
    decreases |pipelines|
  {
    if pipelines != [] {
      var last := pipelines[|pipelines| - 1];
      var init := pipelines[..|pipelines| - 1];
      assert pipelines == init + [last];
      assert Elements(pipelines) == Elements(init) + {last};
      assert last !in Elements(init);
      UniqueCount(init);
    }
  }

  /** A run's attempts are distinct, include its own pipeline, and number at most
      one more than the alternatives its policy allows. */
  lemma AttemptsAreBounded(id: TaskId, trace: seq<Tick>, clock: int, r: RunId)
    requires Timely(id, clock, trace)
    ensures var l := Exec(EmptyLedger(id), trace);
            r in l.runs && l.runs[r].providerFallback.Some? ==>
              var policy := l.runs[r].providerFallback.value;
              && Unique(policy.attemptedPipelines) && l.runs[r].pipeline in policy.attemptedPipelines
              && |policy.attemptedPipelines| <= |policy.allowedPipelines| + 1
  {
    ReachableIsGood(id, trace, clock);
    var l := Exec(EmptyLedger(id), trace);
    if r in l.runs && l.runs[r].providerFallback.Some? {
      assert GoodRun(l.runs[r], ClockAfter(clock, trace));
      PolicyBound(l.runs[r].providerFallback.value, l.runs[r].pipeline);
    }
  }

  lemma PolicyBound(policy: FallbackPolicy, pipeline: Pipeline)
    requires GoodPolicy(policy, pipeline)
    ensures |policy.attemptedPipelines| <= |policy.allowedPipelines| + 1
  {
    var later := policy.attemptedPipelines[1..];
    assert forall i | 0 <= i < |later| :: later[i] == policy.attemptedPipelines[i + 1];
    UniqueCount(later);
    UniqueCount(policy.allowedPipelines);
    Within(Elements(later), Elements(policy.allowedPipelines));
  }
}
