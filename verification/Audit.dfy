/** The audit trail: in every reachable state a run's events replay to its state, its
    fallback policy names the attempts it descends from, and its outcome is published
    exactly when it was not handed to a successor. */
module Audit {
  import opened Model
  import opened Decide
  import opened Routing
  import opened Orchestrator
  import opened Ledgers
  import opened Invariants
  import opened Primitives
  import opened Lawful
  import opened CommandPlans
  import opened RequestPlans
  import opened Machine
  import opened History
  import opened Effects
  import opened Frames
  import opened CredentialFence

  // ------------------------------------------------------------------- one step, per run

  /** Each run a step leaves behind appended to its trail, or opened one. */
  ghost predicate Trails(l: Ledger, k: Ledger, now: int) {
    forall r | r in k.runs :: if r in l.runs then Appends(l.runs[r], k.runs[r], now) else Opens(k.runs[r], now)
  }

  lemma StillTrails(l: Ledger, k: Ledger, now: int)
    requires k.runs == l.runs
    ensures Trails(l, k, now)
  {
  }

  /** A decision writes its own run and at most one more. */
  lemma CommitTrails(l: Ledger, d: Decision, r: RunId, now: int)
    requires r in l.runs && l.runs[r].runId == r
    requires d.run.Some? ==> d.run.value.runId == r && Appends(l.runs[r], d.run.value, now)
    requires d.additionalRun.Some? ==> d.additionalRun.value.runId !in l.runs && Opens(d.additionalRun.value, now)
    ensures Trails(l, Commit(l, d), now)
  {
  }

  lemma CommandTrails(l: Ledger, now: int, r: RunId, cmd: RunCommand, cleanupId: string)
    requires Inv(l, now)
    ensures Trails(l, TransactRun(l, now, r, cmd, cleanupId), now)
  {
    var o := RunOutcome(l, now, r, cmd, cleanupId);
    if o.Decided? {
      ReadsHeld(l, r, now);
      OnRunFrame(now, l.task.value, l.runs[r], cmd, cleanupId, o.decision);
      var plan := RunOutcomePlan(l, now, r, cmd, cleanupId);
      PlanNames(l, r, o.decision, plan, now);
      CommitTrails(l, o.decision, r, now);
    }
  }

  /** Which runs a command's decision writes. */
  lemma PlanNames(l: Ledger, r: RunId, d: Decision, plan: Plan, now: int)
    requires Reads(l, r, now) && Executes(l, r, d, plan, now)
    ensures d.run.Some? ==> d.run.value.runId == r
    ensures d.additionalRun.Some? ==> d.additionalRun.value.runId !in l.runs
  {
    assert RunLocked(l, r);
    var next := RunId(l.id, RunCount(l) + 1);
    assert next in l.runs ==> RunLocked(l, next);
  }

  // -------------------------------------------------------------------------- requests

  /** What a request's decision writes: the minted run, and the run it cancels. */
  ghost predicate RequestTrail(active: Option<Run>, d: Decision, now: int, given: Option<FallbackInput>) {
    && (d.run.Some? ==>
          Opens(d.run.value, now)
          && d.run.value.providerFallback == MintedPolicy(given, d.run.value.pipeline, d.run.value.runId))
    && (d.additionalRun.Some? ==>
          && d.run.Some? && active.Some? && d.additionalRun.value.runId == active.value.runId
          && Appends(active.value, d.additionalRun.value, now)
          && OutcomeMatches(active.value, d.additionalRun.value, d.outbox))
    && (forall r | Emits(d.outbox, EntryId(ReportOutcome, r)) ::
          d.additionalRun.Some? && d.additionalRun.value.runId == r)
    && AllFresh(d.outbox) && Startless(d.outbox)
  }

  lemma OpenTrail(a: RequestArgs, task: Option<Task>, active: Option<Run>, d: Decision)
    requires RequestRun(a, task, active) == Decided(d)
    ensures RequestTrail(active, d, a.now, a.providerFallback) && d.run.Some? && d.additionalRun.None?
    ensures d.outbox == [NewEntry(DispatchRun, d.run.value.runId, a.now)]
  {
  }

  /** A canceled owner, joined by the request that replaces it. */
  lemma JoinTrail(now: int, t: Task, owner: Run, note: Note, a: RequestArgs, mint: Decision)
    requires a.now == now && CancelRun(now, t, owner, Some(note), None).Decided?
    requires var canceled := CancelRun(now, t, owner, Some(note), None).decision;
             RequestRun(a, Some(canceled.task), None) == Decided(mint)
    ensures var canceled := CancelRun(now, t, owner, Some(note), None).decision;
            && (!note.LabelHandoff? ==> RequestTrail(Some(owner), Joined(canceled, mint), now, a.providerFallback))
            && RequestTrail(Some(owner), Joined(canceled.(outbox := []), mint), now, a.providerFallback)
  {
    var canceled := CancelRun(now, t, owner, Some(note), None).decision;
    OpenTrail(a, Some(canceled.task), None, mint);
    OnlyOutcome(canceled.outbox, mint.run.value.runId, owner.runId, now);
    OnlyOutcome([], mint.run.value.runId, owner.runId, now);
    assert canceled.outbox == [NewEntry(ReportOutcome, owner.runId, now)];
  }

  lemma OnlyOutcome(entries: seq<OutboxEntry>, minted: RunId, owner: RunId, now: int)
    requires entries == [] || entries == [NewEntry(ReportOutcome, owner, now)]
    ensures forall r | Emits(entries + [NewEntry(DispatchRun, minted, now)], EntryId(ReportOutcome, r)) ::
              entries != [] && r == owner
    ensures AllFresh(entries + [NewEntry(DispatchRun, minted, now)])
    ensures Startless(entries + [NewEntry(DispatchRun, minted, now)])
  {
  }

  lemma LabelTrail(given: RequestArgs, task: Option<Task>, active: Option<Run>, admitted: Pipeline,
                   intent: LabelRequest,
                   evidence: RoutingEvidence, d: Decision)
    requires DecideLabelProviderRequest(given, task, active, admitted, intent, evidence) == Decided(d)
    ensures RequestTrail(active, d, given.now, given.providerFallback)
  {
    LabelCases(given, task, active, admitted, intent, evidence, d);
    var a := given.(priority := LabelPriority(active, evidence.latestRun, given.priority));
    var attempt := LabelAttempt(a, task, active, admitted);
    if d.run.Some? && attempt.Decided? { AttemptTrail(a, task, active, admitted, attempt.decision); }
  }

  lemma AttemptTrail(a: RequestArgs, task: Option<Task>, active: Option<Run>, admitted: Pipeline, d: Decision)
    requires LabelAttempt(a, task, active, admitted) == Decided(d)
    ensures RequestTrail(active, d, a.now, a.providerFallback)
  {
    if task.Some? && active.Some? && IsLive(active.value.state) && a.pipeline != admitted {
      var canceled := CancelRun(a.now, task.value, active.value, Some(LabelHandoff(a.pipeline)), None).decision;
      JoinTrail(a.now, task.value, active.value, LabelHandoff(a.pipeline), a,
                RequestRun(a, Some(canceled.task), None).decision);
    } else {
      OpenTrail(a, task, active, d);
    }
  }

  lemma ReplaceTrail(a: RequestArgs, input: RequestInput, task: Option<Task>, active: Option<Run>, d: Decision)
    requires input.replaceQueuedRunId.Some? && ReplaceQueuedRun(a, input, task, active) == Decided(d)
    ensures RequestTrail(active, d, a.now, a.providerFallback)
  {
    var canceled := CancelRun(a.now, task.value, active.value, Some(QueuedSwitch(input.pipeline)), None).decision;
    JoinTrail(a.now, task.value, active.value, QueuedSwitch(input.pipeline), a,
              RequestRun(a, Some(canceled.task), None).decision);
  }

  lemma RevisionTrail(a: RequestArgs, task: Option<Task>, active: Option<Run>, d: Decision)
    requires a.sourceRevision.Some? && RequestRevisionRun(a, task, active) == Decided(d)
    ensures RequestTrail(active, d, a.now, a.providerFallback)
  {
    if task.None? || RequestRun(a, task, active) == Decided(d) {
      OpenTrail(a, task, active, d);
    } else {
      RevisionCases(a, task.value, active, d);
      if SupersedesOwner(a, task.value, active, d) {
        var desired := DesiredTask(a, task.value);
        var canceled := CancelRun(a.now, desired, active.value, Some(SupersededByRevision), None).decision;
        JoinTrail(a.now, desired, active.value, SupersededByRevision, a,
                  RequestRun(a, Some(canceled.task), None).decision);
      }
    }
  }

  lemma AdmissionTrail(now: int, input: RequestInput, state: RequestState, d: Decision)
    requires DecideRequest(now, input, state) == Decided(d)
    ensures RequestTrail(state.activeRun, d, now, ArgsOf(now, input, state).providerFallback)
  {
    var a := ArgsOf(now, input, state);
    RequestCases(now, input, state, d);
    if input.labelIntent.Some? {
      LabelTrail(a, state.task, state.activeRun, AdmittedPipeline(input, state.task), input.labelIntent.value,
                 state.evidence, d);
    } else if input.replaceQueuedRunId.Some? {
      ReplaceTrail(a, input, state.task, state.activeRun, d);
    } else if input.sourceRevision.None? {
      OpenTrail(a, state.task, state.activeRun, d);
    } else {
      RevisionTrail(a.(sourceRevision := input.sourceRevision), state.task, state.activeRun, d);
    }
  }

  /** The run a request mints is new to the ledger. */
  lemma RequestNames(l: Ledger, d: Decision, plan: Plan, now: int)
    requires MutexInv(l) && Admits(l, d, plan, now)
    ensures d.run.Some? ==> d.run.value.runId !in l.runs
  {
    var next := RunId(l.id, RunCount(l) + 1);
    assert next in l.runs ==> RunLocked(l, next);
  }

  lemma RequestCommitTrails(l: Ledger, active: Option<Run>, d: Decision, now: int, given: Option<FallbackInput>)
    requires RequestTrail(active, d, now, given)
    requires active.Some? ==> active.value.runId in l.runs && l.runs[active.value.runId] == active.value
    requires d.run.Some? ==> d.run.value.runId !in l.runs
    ensures Trails(l, Commit(l, d), now)
  {
  }

  /** What a decided request commits, and to what. */
  lemma RequestDecided(l: Ledger, now: int, input: RequestInput, d: Decision) returns (given: Option<FallbackInput>)
    requires Inv(l, now) && RequestOutcome(l, now, input) == Decided(d)
    ensures TransactRequest(l, now, input) == Commit(Recorded(l, input, d), d) && Recorded(l, input, d).runs == l.runs
    ensures RequestTrail(ActiveRun(l), d, now, given)
    ensures ActiveRun(l).Some? ==>
              ActiveRun(l).value.runId in l.runs && l.runs[ActiveRun(l).value.runId] == ActiveRun(l).value
    ensures GoodInput(input) && given.Some? ==> given.value.Authorized?
  {
    RequestWrites(l, now, input);
    var state := Snapshot(l, input, ResolvedRequestId(l, input).value);
    AdmissionTrail(now, input, state, d);
    RecordedExtends(l, input, d);
    ActiveIsLive(l, now);
    given := ArgsOf(now, input, state).providerFallback;
  }

  lemma RequestTrails(l: Ledger, now: int, input: RequestInput)
    requires Inv(l, now) && GoodInput(input) && input.taskId == l.id
    ensures Trails(l, TransactRequest(l, now, input), now)
  {
    var o := RequestOutcome(l, now, input);
    if o.Decided? {
      var given := RequestDecided(l, now, input, o.decision);
      var plan := RequestOutcomePlan(l, now, input, o.decision);
      var base := Recorded(l, input, o.decision);
      RequestNames(base, o.decision, plan, now);
      RequestCommitTrails(base, ActiveRun(l), o.decision, now, given);
    } else {
      RequestWrites(l, now, input);
      StillTrails(l, TransactRequest(l, now, input), now);
    }
  }

  // --------------------------------------------------------------------------- upkeep

  lemma WriteTrails(l: Ledger, run: Run, now: int)
    requires run.runId in l.runs
    requires run.events == l.runs[run.runId].events && run.state == l.runs[run.runId].state
    ensures Trails(l, SetRun(l, run), now)
  {
  }

  /** Enqueue, claim and release record nothing in the trail. */
  lemma QueueTrails(l: Ledger, now: int, event: Event)
    requires MutexInv(l) && (event.Enqueued? || event.ClaimTaken? || event.ClaimReleased?)
    ensures Trails(l, QueueStep(l, now, event), now)
  {
    var k := QueueStep(l, now, event);
    if k.runs == l.runs {
      StillTrails(l, k, now);
    } else {
      assert RunLocked(l, event.run);
      WriteTrails(l, k.runs[event.run], now);
    }
  }

  lemma UpkeepTrails(l: Ledger, now: int, event: Event)
    requires MutexInv(l)
    ensures Trails(l, Upkeep(l, now, event), now)
  {
    if event.Enqueued? || event.ClaimTaken? || event.ClaimReleased? {
      QueueTrails(l, now, event);
    } else {
      TaskWritesNoRun(l, now, event);
      EntryWritesNoRun(l, now, event);
      StillTrails(l, Upkeep(l, now, event), now);
    }
  }

  lemma StepTrails(l: Ledger, tick: Tick, clock: int)
    requires Inv(l, clock) && clock <= tick.now && Admissible(l.id, tick.event)
    ensures Trails(l, Step(l, tick), tick.now)
  {
    InvLater(l, clock, tick.now);
    match tick.event {
      case Requested(input) => RequestTrails(l, tick.now, input);
      case OnRun(r, cmd, cleanupId) => CommandTrails(l, tick.now, r, cmd, cleanupId);
      case _ => UpkeepTrails(l, tick.now, tick.event);
    }
  }

  // --------------------------------------------------------------- every run's trail

  /** The events start with the request, follow the run's states one by one in the order
      of the clock, and end in the state the run is in. */
  ghost predicate Trail(run: Run, clock: int) {
    && run.events != []
    && run.events[0].to.Pending? && run.events[0].actor.ByRequest?
    && (forall i | 0 <= i < |run.events| - 1 ::
          Advances(run.events[i].to, run.events[i + 1].to) && run.events[i].at <= run.events[i + 1].at)
    && run.events[|run.events| - 1].to == run.state && run.events[|run.events| - 1].at <= clock
  }

  ghost predicate TrailInv(l: Ledger, clock: int) {
    forall r | r in l.runs :: Trail(l.runs[r], clock)
  }

  lemma TrailGrows(before: Run, after: Run, clock: int, now: int)
    requires Trail(before, clock) && clock <= now && Appends(before, after, now)
    ensures Trail(after, now)
  {
    forall i | 0 <= i < |after.events| - 1
      ensures Advances(after.events[i].to, after.events[i + 1].to) && after.events[i].at <= after.events[i + 1].at
    {
      if |after.events| != |before.events| {
        assert after.events[i] == before.events[i];
        if i + 1 < |before.events| { assert after.events[i + 1] == before.events[i + 1]; }
      }
    }
  }

  lemma TrailsKept(l: Ledger, k: Ledger, clock: int, now: int)
    requires TrailInv(l, clock) && clock <= now && Trails(l, k, now)
    ensures TrailInv(k, now)
  {
    forall r | r in k.runs ensures Trail(k.runs[r], now) {
      if r in l.runs {
        TrailGrows(l.runs[r], k.runs[r], clock, now);
      } else {
        assert Opens(k.runs[r], now);
      }
    }
  }

  lemma {:induction false} TrailsHold(l: Ledger, trace: seq<Tick>, clock: int)
    requires Inv(l, clock) && TrailInv(l, clock) && Timely(l.id, clock, trace)
    ensures TrailInv(Exec(l, trace), ClockAfter(clock, trace))
    decreases |trace|
  {
    if trace != [] {
      var k, rest := Step(l, trace[0]), trace[1..];
      StepTrails(l, trace[0], clock);
      StepPreserves(l, trace[0], clock);
      TrailsKept(l, k, clock, trace[0].now);
      TrailsHold(k, rest, trace[0].now);
    }
  }

  /** In every reachable state each run's events replay to the state it is in. */
  lemma EventsReplayToState(id: TaskId, trace: seq<Tick>, clock: int, r: RunId)
    requires Timely(id, clock, trace)
    ensures var l := Exec(EmptyLedger(id), trace);
            r in l.runs ==> Trail(l.runs[r], ClockAfter(clock, trace))
  {
    EmptyIsGood(id, clock);
    TrailsHold(EmptyLedger(id), trace, clock);
  }

  // ------------------------------------------------------------------------- outcomes

  /** An outcome is emitted for a run the step settles, whose last event hands it to no
      successor; and every entry is emitted pending, handed out to no one. */
  ghost predicate Publishes(l: Ledger, k: Ledger, entries: seq<OutboxEntry>) {
    && AllFresh(entries)
    && forall r | Emits(entries, EntryId(ReportOutcome, r)) ::
         r in l.runs && r in k.runs && OutcomeMatches(l.runs[r], k.runs[r], entries)
  }

  lemma TouchOutcome(l: Ledger, r: RunId, d: Decision, now: int, o: RunId)
    requires MutexInv(l) && r in l.runs && l.task.Some? && Touches(l.task.value, l.runs[r], d, now)
    ensures Emits(d.outbox, EntryId(ReportOutcome, o)) ==> o == r
  {
    assert RunLocked(l, r);
    assert forall i | 0 <= i < |d.outbox| ::
        EffectKept(l.task.value, d.task, d.outbox[i].entryId, r, Settles(l.runs[r], d.run.value));
  }

  lemma SequenceOutcome(l: Ledger, r: RunId, touch: Decision, mint: Decision, now: int, o: RunId)
    requires MutexInv(l) && TouchThenMint(l, r, touch, mint, now)
    ensures Emits(touch.outbox + mint.outbox, EntryId(ReportOutcome, o)) ==> o == r
  {
    TouchOutcome(l, r, touch, now, o);
    var joined := touch.outbox + mint.outbox;
    forall i | 0 <= i < |joined| && joined[i].entryId == EntryId(ReportOutcome, o) ensures o == r {
      if i < |touch.outbox| { assert touch.outbox[i].entryId == EntryId(ReportOutcome, o); }
    }
  }

  /** A command's decision publishes no outcome but its own run's. */
  lemma PlanOutcome(l: Ledger, r: RunId, d: Decision, plan: Plan, now: int, o: RunId)
    requires Reads(l, r, now) && Executes(l, r, d, plan, now)
    ensures Emits(d.outbox, EntryId(ReportOutcome, o)) ==> o == r
  {
    match plan {
      case TouchPlan(_) => TouchOutcome(l, r, d, now, o);
      case TaskPlan =>
      case FollowPlan(_, touch, mint) => SequenceOutcome(l, r, touch, mint, now, o);
    }
  }

  lemma CommandPublishes(l: Ledger, now: int, r: RunId, cmd: RunCommand, cleanupId: string, d: Decision)
    requires Inv(l, now) && RunOutcome(l, now, r, cmd, cleanupId) == Decided(d)
    ensures Publishes(l, Commit(l, d), d.outbox)
  {
    ReadsHeld(l, r, now);
    OnRunFrame(now, l.task.value, l.runs[r], cmd, cleanupId, d);
    var plan := RunOutcomePlan(l, now, r, cmd, cleanupId);
    PlanWrites(l, r, d, plan, now);
    forall o | Emits(d.outbox, EntryId(ReportOutcome, o)) ensures o == r { PlanOutcome(l, r, d, plan, now, o); }
  }

  lemma RequestCommitPublishes(l: Ledger, active: Option<Run>, d: Decision, now: int, given: Option<FallbackInput>)
    requires RequestTrail(active, d, now, given)
    requires active.Some? ==> active.value.runId in l.runs && l.runs[active.value.runId] == active.value
    ensures Publishes(l, Commit(l, d), d.outbox)
  {
  }

  lemma RequestPublishes(l: Ledger, now: int, input: RequestInput, d: Decision)
    requires Inv(l, now) && RequestOutcome(l, now, input) == Decided(d)
    ensures Publishes(l, TransactRequest(l, now, input), d.outbox)
  {
    var given := RequestDecided(l, now, input, d);
    RequestCommitPublishes(Recorded(l, input, d), ActiveRun(l), d, now, given);
  }

  lemma NothingPublishes(l: Ledger, k: Ledger)
    ensures Publishes(l, k, [])
  {
  }

  lemma TaskEmitsNothing(l: Ledger, now: int, event: Event)
    ensures TaskOutcome(l, now, event).Decided? ==> TaskOutcome(l, now, event).decision.outbox == []
  {
  }

  /** Every step publishes outcomes only so. */
  lemma StepPublishes(l: Ledger, tick: Tick, clock: int)
    requires Inv(l, clock) && clock <= tick.now
    ensures Publishes(l, Step(l, tick), Emitted(l, tick))
  {
    InvLater(l, clock, tick.now);
    NothingPublishes(l, Step(l, tick));
    if StepOutcome(l, tick).Decided? {
      match tick.event {
        case Requested(input) => RequestPublishes(l, tick.now, input, StepOutcome(l, tick).decision);
        case OnRun(r, cmd, cleanupId) => CommandPublishes(l, tick.now, r, cmd, cleanupId,
                                                          StepOutcome(l, tick).decision);
        case _ => TaskEmitsNothing(l, tick.now, tick.event);
      }
    }
  }

  // ------------------------------------------------------------ unreported runs, exactly

  /** While a run is live, nothing in its trail is terminal. */
  lemma {:induction false} LiveTrail(run: Run, clock: int, i: nat)
    requires Trail(run, clock) && IsLive(run.state) && i < |run.events|
    ensures IsLive(run.events[i].to)
    decreases |run.events| - i
  {
    if i < |run.events| - 1 { LiveTrail(run, clock, i + 1); }
  }

  ghost predicate Silent(l: Ledger, r: RunId)
    requires r in l.runs
  {
    Unreported(l.runs[r]) ==> EntryId(ReportOutcome, r) !in l.outbox
  }

  ghost predicate OutcomeInv(l: Ledger) {
    forall r | r in l.runs :: Silent(l, r)
  }

  /** If the trail was handed over by its settling event, no outcome goes with it. */
  lemma SettledSilently(before: Run, after: Run, entries: seq<OutboxEntry>, clock: int, now: int)
    requires Trail(before, clock) && IsLive(before.state) && Appends(before, after, now) && Unreported(after)
    requires OutcomeMatches(before, after, entries)
    ensures !Emits(entries, EntryId(ReportOutcome, before.runId))
  {
    forall i | 0 <= i < |before.events| ensures !HandsOver(before.events[i]) { LiveTrail(before, clock, i); }
    assert forall i | 0 <= i < |before.events| :: after.events[i] == before.events[i];
  }

  lemma HandedBefore(before: Run, after: Run, now: int)
    requires !IsLive(before.state) && Appends(before, after, now) && Unreported(after)
    ensures Unreported(before)
  {
    var i :| 0 <= i < |after.events| && HandsOver(after.events[i]);
    assert i < |before.events|;
    assert before.events[i] == after.events[i];
  }

  lemma RunSilent(l: Ledger, k: Ledger, r: RunId, entries: seq<OutboxEntry>, clock: int, now: int)
    requires EffectInv(l) && OutcomeInv(l) && Publishes(l, k, entries)
    requires r in l.runs && r in k.runs && Trail(l.runs[r], clock) && Appends(l.runs[r], k.runs[r], now)
    requires l.runs[r].runId == r
    requires k.outbox.Keys == l.outbox.Keys + Ids(entries)
    ensures Silent(k, r)
  {
    var id := EntryId(ReportOutcome, r);
    assert id in l.outbox ==> GoodEntry(l, id);
    assert Silent(l, r);
    if Unreported(k.runs[r]) {
      if IsLive(l.runs[r].state) {
        assert Emits(entries, id) ==> OutcomeMatches(l.runs[r], k.runs[r], entries);
        if Emits(entries, id) { SettledSilently(l.runs[r], k.runs[r], entries, clock, now); }
      } else {
        HandedBefore(l.runs[r], k.runs[r], now);
      }
    }
  }

  lemma OutcomesKept(l: Ledger, tick: Tick, clock: int)
    requires Inv(l, clock) && TrailInv(l, clock) && OutcomeInv(l) && clock <= tick.now && Admissible(l.id, tick.event)
    ensures OutcomeInv(Step(l, tick))
  {
    var k := Step(l, tick);
    StepTrails(l, tick, clock);
    StepPublishes(l, tick, clock);
    StepEmits(l, tick, clock);
    forall r | r in k.runs ensures Silent(k, r) {
      if r in l.runs {
        assert RunLocked(l, r);
        RunSilent(l, k, r, Emitted(l, tick), clock, tick.now);
      } else {
        assert Opens(k.runs[r], tick.now);
      }
    }
  }

  lemma {:induction false} OutcomesHold(l: Ledger, trace: seq<Tick>, clock: int)
    requires Inv(l, clock) && TrailInv(l, clock) && OutcomeInv(l) && Timely(l.id, clock, trace)
    ensures OutcomeInv(Exec(l, trace))
    decreases |trace|
  {
    if trace != [] {
      var k, rest := Step(l, trace[0]), trace[1..];
      OutcomesKept(l, trace[0], clock);
      StepTrails(l, trace[0], clock);
      StepPreserves(l, trace[0], clock);
      TrailsKept(l, k, clock, trace[0].now);
      OutcomesHold(k, rest, trace[0].now);
    }
  }

  /** From the empty ledger: each run's dispatch is emitted exactly once, and its outcome
      exactly once when it settled unless it was rerouted or handed over, else never. */
  lemma EveryRunReports(id: TaskId, trace: seq<Tick>, clock: int, r: RunId)
    requires Timely(id, clock, trace) && r in Exec(EmptyLedger(id), trace).runs
    ensures var es := Emissions(EmptyLedger(id), trace);
            var run := Exec(EmptyLedger(id), trace).runs[r];
            && EmittedExactlyOnce(es, EntryId(DispatchRun, r))
            && (if IsLive(run.state) || Unreported(run) then !Emits(es, EntryId(ReportOutcome, r))
                else EmittedExactlyOnce(es, EntryId(ReportOutcome, r)))
  {
    var l := Exec(EmptyLedger(id), trace);
    ReachableIsGood(id, trace, clock);
    EmptyIsGood(id, clock);
    EmittedOnce(EmptyLedger(id), trace, clock);
    OutcomesHold(EmptyLedger(id), trace, clock);
    assert RunEffects(l, r) && Silent(l, r);
    assert EntryId(ReportOutcome, r) in l.outbox ==> GoodEntry(l, EntryId(ReportOutcome, r));
    ListedOnce(Emissions(EmptyLedger(id), trace));
  }

  // -------------------------------------------------------------------------- lineage

  /** A request's run founds a policy of its own. */
  ghost predicate Founds(run: Run) {
    run.providerFallback.Some? ==>
      var policy := run.providerFallback.value;
      && policy.originalRunId == run.runId && policy.attemptedPipelines == [run.pipeline]
      && policy.fromRunId.None? && policy.trigger.None?
  }

  /** The policy names its first attempt, and the settled attempt it extends by one. */
  ghost predicate Rooted(l: Ledger, r: RunId)
    requires r in l.runs
  {
    l.runs[r].providerFallback.Some? ==>
      var policy := l.runs[r].providerFallback.value;
      && policy.attemptedPipelines != [] && policy.originalRunId in l.runs
      && l.runs[policy.originalRunId].pipeline == policy.attemptedPipelines[0]
      && if policy.fromRunId.None? then policy.attemptedPipelines == [l.runs[r].pipeline] && policy.trigger.None?
         else Prior(l, policy.fromRunId.value, policy, l.runs[r].pipeline)
  }

  ghost predicate Prior(l: Ledger, from: RunId, policy: FallbackPolicy, pipeline: Pipeline) {
    && from in l.runs && !IsLive(l.runs[from].state) && l.runs[from].providerFallback.Some?
    && ExtendsPolicy(l.runs[from].providerFallback.value, policy, l.runs[from], pipeline)
  }

  ghost predicate LineageInv(l: Ledger) {
    forall r | r in l.runs :: Rooted(l, r)
  }

  ghost predicate Begotten(l: Ledger, m: Run) {
    Founds(m) || exists r | r in l.runs :: Descends(l.runs[r].providerFallback, l.runs[r], m)
  }

  /** Each new run founds its policy, or descends from a run there was. */
  ghost predicate Begets(l: Ledger, k: Ledger) {
    forall m | m in k.runs && m !in l.runs :: k.runs[m].runId == m && Begotten(l, k.runs[m])
  }

  lemma CommandBegets(l: Ledger, now: int, r: RunId, cmd: RunCommand, cleanupId: string)
    requires Inv(l, now)
    ensures Begets(l, TransactRun(l, now, r, cmd, cleanupId))
  {
    var o := RunOutcome(l, now, r, cmd, cleanupId);
    if o.Decided? {
      ReadsHeld(l, r, now);
      OnRunFrame(now, l.task.value, l.runs[r], cmd, cleanupId, o.decision);
      var plan := RunOutcomePlan(l, now, r, cmd, cleanupId);
      PlanNames(l, r, o.decision, plan, now);
      CommitBegets(l, o.decision);
    }
  }

  lemma FreshPolicyFounds(input: Option<FallbackInput>, run: Run)
    requires input.Some? ==> input.value.Authorized?
    requires run.providerFallback == MintedPolicy(input, run.pipeline, run.runId)
    ensures Founds(run)
  {
  }

  lemma RequestBegets(l: Ledger, now: int, input: RequestInput)
    requires Inv(l, now) && GoodInput(input)
    ensures Begets(l, TransactRequest(l, now, input))
  {
    var o := RequestOutcome(l, now, input);
    if o.Decided? {
      var given := RequestDecided(l, now, input, o.decision);
      if o.decision.run.Some? { FreshPolicyFounds(given, o.decision.run.value); }
      CommitBegets(Recorded(l, input, o.decision), o.decision);
    } else {
      RequestWrites(l, now, input);
    }
  }

  lemma CommitBegets(l: Ledger, d: Decision)
    requires d.run.Some? ==> d.run.value.runId in l.runs || Begotten(l, d.run.value)
    requires d.additionalRun.Some? ==> d.additionalRun.value.runId in l.runs || Begotten(l, d.additionalRun.value)
    ensures Begets(l, Commit(l, d))
  {
  }

  lemma UpkeepBegets(l: Ledger, now: int, event: Event)
    requires MutexInv(l)
    ensures Begets(l, Upkeep(l, now, event))
  {
    if event.Enqueued? || event.ClaimTaken? || event.ClaimReleased? {
      if event.run in l.runs { assert RunLocked(l, event.run); }
    } else {
      TaskWritesNoRun(l, now, event);
      EntryWritesNoRun(l, now, event);
    }
  }

  lemma StepBegets(l: Ledger, tick: Tick, clock: int)
    requires Inv(l, clock) && clock <= tick.now && Admissible(l.id, tick.event)
    ensures Begets(l, Step(l, tick))
  {
    InvLater(l, clock, tick.now);
    match tick.event {
      case Requested(input) => RequestBegets(l, tick.now, input);
      case OnRun(r, cmd, cleanupId) => CommandBegets(l, tick.now, r, cmd, cleanupId);
      case _ => UpkeepBegets(l, tick.now, tick.event);
    }
  }

  /** What was rooted stays rooted: runs persist, and settled ones stay settled. */
  lemma StaysRooted(l: Ledger, k: Ledger, r: RunId)
    requires RunsMove(l, k) && r in l.runs && Rooted(l, r)
    ensures r in k.runs && Rooted(k, r)
  {
    assert RunMoves(l.runs[r], k.runs[r]);
    if l.runs[r].providerFallback.Some? {
      var policy := l.runs[r].providerFallback.value;
      assert RunMoves(l.runs[policy.originalRunId], k.runs[policy.originalRunId]);
      if policy.fromRunId.Some? {
        assert RunMoves(l.runs[policy.fromRunId.value], k.runs[policy.fromRunId.value]);
      }
    }
  }

  lemma DescendantRooted(l: Ledger, k: Ledger, r: RunId, m: RunId)
    requires RunsMove(l, k) && MutexInv(k) && r in l.runs && Rooted(l, r)
    requires l.runs[r].runId == r && m in k.runs && m != r && IsLive(k.runs[m].state)
    requires Descends(l.runs[r].providerFallback, l.runs[r], k.runs[m])
    ensures Rooted(k, m)
  {
    StaysRooted(l, k, r);
    assert RunMoves(l.runs[r], k.runs[r]);
    assert RunLocked(k, r) && RunLocked(k, m);
  }

  lemma LineageKept(l: Ledger, tick: Tick, clock: int)
    requires Inv(l, clock) && LineageInv(l) && clock <= tick.now && Admissible(l.id, tick.event)
    ensures LineageInv(Step(l, tick))
  {
    var k := Step(l, tick);
    StepMoves(l, tick, clock);
    StepPreserves(l, tick, clock);
    StepBegets(l, tick, clock);
    StepTrails(l, tick, clock);
    forall m | m in k.runs ensures Rooted(k, m) {
      if m in l.runs { StaysRooted(l, k, m); } else { NewRooted(l, k, m, clock, tick.now); }
    }
  }

  lemma NewRooted(l: Ledger, k: Ledger, m: RunId, clock: int, now: int)
    requires MutexInv(l) && LineageInv(l) && RunsMove(l, k) && MutexInv(k)
    requires m in k.runs && m !in l.runs && k.runs[m].runId == m && Begotten(l, k.runs[m]) && Opens(k.runs[m], now)
    ensures Rooted(k, m)
  {
    if !Founds(k.runs[m]) {
      var r :| r in l.runs && Descends(l.runs[r].providerFallback, l.runs[r], k.runs[m]);
      assert RunLocked(l, r) && Rooted(l, r);
      DescendantRooted(l, k, r, m);
    }
  }

  lemma {:induction false} LineageHolds(l: Ledger, trace: seq<Tick>, clock: int)
    requires Inv(l, clock) && LineageInv(l) && Timely(l.id, clock, trace)
    ensures LineageInv(Exec(l, trace))
    decreases |trace|
  {
    if trace != [] {
      LineageKept(l, trace[0], clock);
      StepPreserves(l, trace[0], clock);
      LineageHolds(Step(l, trace[0]), trace[1..], trace[0].now);
    }
  }

  /** In every reachable state a policy tells the truth about its ancestry: it began at
      an existing run on the first attempted pipeline, and its last attempt extends by
      one a settled run that reached its limit under the same authorization. */
  lemma PolicyTellsItsAncestry(id: TaskId, trace: seq<Tick>, clock: int, r: RunId)
    requires Timely(id, clock, trace)
    ensures var l := Exec(EmptyLedger(id), trace); r in l.runs ==> Rooted(l, r)
  {
    EmptyIsGood(id, clock);
    LineageHolds(EmptyLedger(id), trace, clock);
  }
}
