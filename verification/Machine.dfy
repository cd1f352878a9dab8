/** One task's durable state machine: every operation of the orchestrator and of
    the store's queue and outbox, in any order, under a clock that never goes back. */
module Machine {
  import opened Model
  import opened Decide
  import opened Orchestrator
  import opened Ledgers
  import opened Invariants
  import opened Primitives
  import opened TouchSteps
  import opened Lawful
  import opened CommandPlans
  import opened RequestPlans
  import opened Outbox

  datatype Event =
    | Requested(input: RequestInput)
    | OnRun(run: RunId, cmd: RunCommand, cleanupId: string)
    | Enqueued(run: RunId)
    | ClaimTaken(run: RunId, claimedBy: string, subject: string, tokenHash: string, placementAware: bool)
    | ClaimReleased(run: RunId, claimedBy: string, tokenHash: string, deferredUntil: Option<int>)
    | Closed
    | WorkUpdated(work: string)
    | IssueRefreshed(issue: Issue)
    | EntryLeased(entry: EntryId, claimId: string, leaseExpiresAt: int)
    | EntrySettled(settlement: Settlement)
    | EntryWoken(entry: EntryId)

  datatype Tick = Tick(now: int, event: Event)

  // ---------------------------------------------------------------------- steps

  function SetEntry(l: Ledger, id: EntryId, entry: Option<OutboxEntry>): Ledger {
    if entry.None? then l else l.(outbox := l.outbox[id := entry.value])
  }

  function EntryStep(l: Ledger, now: int, event: Event): Ledger {
    match event
    case EntryLeased(id, claimId, leaseExpiresAt) =>
      if id !in l.outbox || !(EntryExpired(l.outbox[id], now) || Due(l.outbox[id], now)) then l
      else SetEntry(l, id, Some(LeaseEntry(l.outbox[id], claimId, leaseExpiresAt, now)))
    case EntrySettled(settlement) =>
      if settlement.entryId !in l.outbox then l
      else SetEntry(l, settlement.entryId, SettleOutboxEntry(l.outbox[settlement.entryId], settlement))
    case EntryWoken(id) => if id !in l.outbox then l else SetEntry(l, id, WakeOutboxEntry(l.outbox[id], now))
    case _ => l
  }

  /** The decision of an optimistic write, taken atomically; see module `Linearization`. */
  function TaskOutcome(l: Ledger, now: int, event: Event): Outcome {
    DecideTask(l.task, ActiveRun(l), now, event)
  }

  function DecideTask(task: Option<Task>, activeRun: Option<Run>, now: int, event: Event): Outcome {
    match event
    case Closed => CloseTask(now, task, activeRun)
    case WorkUpdated(work) => UpdateTaskWork(now, task, activeRun, work)
    case IssueRefreshed(issue) => RefreshIssue(now, task, issue)
    case _ => Refuse(UnknownTask)
  }

  function QueueStep(l: Ledger, now: int, event: Event): Ledger {
    match event
    case Enqueued(r) => EnqueueRun(l, now, r)
    case ClaimTaken(r, claimedBy, subject, tokenHash, aware) => ClaimRun(l, now, r, claimedBy, subject, tokenHash,
                                                                         aware)
    case ClaimReleased(r, claimedBy, tokenHash, deferredUntil) => ReleaseRun(l, now, r, claimedBy, tokenHash,
                                                                             deferredUntil)
    case _ => l
  }

  function Step(l: Ledger, tick: Tick): Ledger {
    match tick.event
    case Requested(input) => TransactRequest(l, tick.now, input)
    case OnRun(r, cmd, cleanupId) => TransactRun(l, tick.now, r, cmd, cleanupId)
    case _ => Upkeep(l, tick.now, tick.event)
  }

  /** Queue claims, task-only writes and outbox bookkeeping. */
  function Upkeep(l: Ledger, now: int, event: Event): Ledger {
    if event.Enqueued? || event.ClaimTaken? || event.ClaimReleased? then QueueStep(l, now, event)
    else if event.Closed? || event.WorkUpdated? || event.IssueRefreshed? then
      CommitOutcome(l, TaskOutcome(l, now, event))
    else EntryStep(l, now, event)
  }

  /** What the transaction of a step decided; queue and outbox upkeep decides nothing. */
  function StepOutcome(l: Ledger, tick: Tick): Outcome {
    match tick.event
    case Requested(input) => RequestOutcome(l, tick.now, input)
    case OnRun(r, cmd, cleanupId) => RunOutcome(l, tick.now, r, cmd, cleanupId)
    case _ => TaskOutcome(l, tick.now, tick.event)
  }

  function Exec(l: Ledger, trace: seq<Tick>): Ledger
    decreases |trace|
  {
    if trace == [] then l else Exec(Step(l, trace[0]), trace[1..])
  }

  /** The clock never goes back, and requests come from the admission adapters. */
  ghost predicate Timely(id: TaskId, clock: int, trace: seq<Tick>)
    decreases |trace|
  {
    trace == [] || (clock <= trace[0].now && Admissible(id, trace[0].event) && Timely(id, trace[0].now, trace[1..]))
  }

  ghost predicate Admissible(id: TaskId, event: Event) {
    event.Requested? ==> event.input.taskId == id && GoodInput(event.input)
  }

  function ClockAfter(clock: int, trace: seq<Tick>): int
    decreases |trace|
  {
    if trace == [] then clock else ClockAfter(trace[0].now, trace[1..])
  }

  // ------------------------------------------------------------------ what a step is

  /** How a step changes the ledger: not at all where the invariant looks, by a
      lawful commit (on the ledger with its receipt), or by a write of one run. */
  datatype Kind = Quiet | Lawfully(base: Ledger, decision: Decision, plan: Plan) | RunWrite(run: RunId, after: Run)

  /** A queue write is a touch that does not advance the task's version. */
  ghost predicate WritesRun(l: Ledger, k: Ledger, r: RunId, after: Run, now: int) {
    && r in l.runs && l.task.Some?
    && Touches(l.task.value, l.runs[r], Decision(l.task.value, Some(after), None, []), now)
    && k == Commit(l, Decision(l.task.value, Some(after), None, [])).(revision := l.revision)
  }

  ghost predicate StepIs(l: Ledger, k: Ledger, kind: Kind, now: int) {
    match kind
    case Quiet => Extends(l, k) && k.revision == l.revision
    case Lawfully(base, d, plan) =>
      && Extends(l, base) && base.revision == l.revision && Inv(base, now)
      && Follows(base, d, plan, now) && k == Commit(base, d)
    case RunWrite(r, after) => WritesRun(l, k, r, after, now)
  }

  /** The kind commits exactly what the step decided. */
  ghost predicate CommitsOutcome(kind: Kind, outcome: Outcome) {
    (kind.Lawfully? <==> outcome.Decided?) && (kind.Lawfully? ==> kind.decision == outcome.decision)
  }

  lemma InvLater(l: Ledger, clock: int, now: int)
    requires Inv(l, clock) && clock <= now
    ensures Inv(l, now)
  {
    forall r | r in l.runs ensures GoodRun(l.runs[r], now) { GoodRunLater(l.runs[r], clock, now); }
  }

  lemma RequestWrites(l: Ledger, now: int, input: RequestInput)
    ensures var o := RequestOutcome(l, now, input);
            var k := TransactRequest(l, now, input);
            if o.Decided? then k == Commit(Recorded(l, input, o.decision), o.decision)
            else Extends(l, k) && k.revision == l.revision
  {
  }

  lemma RequestKind(l: Ledger, now: int, input: RequestInput) returns (kind: Kind)
    requires Inv(l, now) && GoodInput(input) && input.taskId == l.id
    ensures StepIs(l, TransactRequest(l, now, input), kind, now)
    ensures CommitsOutcome(kind, RequestOutcome(l, now, input))
  {
    var o := RequestOutcome(l, now, input);
    RequestWrites(l, now, input);
    kind := Quiet;
    if o.Decided? {
      var plan := RequestOutcomePlan(l, now, input, o.decision);
      RecordedExtends(l, input, o.decision);
      kind := Lawfully(Recorded(l, input, o.decision), o.decision, plan);
    }
  }

  lemma RunKind(l: Ledger, now: int, r: RunId, cmd: RunCommand, cleanupId: string) returns (kind: Kind)
    requires Inv(l, now)
    ensures StepIs(l, TransactRun(l, now, r, cmd, cleanupId), kind, now)
    ensures CommitsOutcome(kind, RunOutcome(l, now, r, cmd, cleanupId))
  {
    var o := RunOutcome(l, now, r, cmd, cleanupId);
    kind := Quiet;
    if o.Decided? {
      var plan := RunOutcomePlan(l, now, r, cmd, cleanupId);
      kind := Lawfully(l, o.decision, plan);
    }
  }

  lemma WriteKind(l: Ledger, now: int, r: RunId, after: Run) returns (kind: Kind)
    requires Reads(l, r, now)
    requires Touches(l.task.value, l.runs[r], Decision(l.task.value, Some(after), None, []), now)
    ensures StepIs(l, SetRun(l, after), kind, now)
    ensures !kind.Lawfully?
  {
    assert RunLocked(l, r) && Indexed(l, r);
    assert KeyOf(after) == KeyOf(l.runs[r]);
    kind := RunWrite(r, after);
  }

  lemma TaskExists(l: Ledger, r: RunId, now: int)
    requires Inv(l, now) && r in l.runs
    ensures l.task.Some?
  {
    assert RunLocked(l, r);
  }

  lemma EnqueueKind(l: Ledger, now: int, r: RunId) returns (kind: Kind)
    requires Inv(l, now)
    ensures StepIs(l, EnqueueRun(l, now, r), kind, now)
    ensures !kind.Lawfully?
  {
    kind := Quiet;
    if r in l.runs && l.runs[r].queue.None? {
      TaskExists(l, r, now);
      ReadsHeld(l, r, now);
      QueueTouches(now, l.task.value, l.runs[r], EmptyQueue(None));
      kind := WriteKind(l, now, r, l.runs[r].(queue := Some(EmptyQueue(None)), updatedAt := now));
    }
  }

  lemma ClaimKind(l: Ledger, now: int, r: RunId, claimedBy: string, subject: string, tokenHash: string, aware: bool)
    returns (kind: Kind)
    requires Inv(l, now)
    ensures StepIs(l, ClaimRun(l, now, r, claimedBy, subject, tokenHash, aware), kind, now)
    ensures !kind.Lawfully?
  {
    kind := Quiet;
    if r in l.runs && IsQueueAdmissionCandidate(l.runs[r], now) {
      TaskExists(l, r, now);
      ReadsHeld(l, r, now);
      ClaimTouches(now, l.task.value, l.runs[r], claimedBy, subject, tokenHash, aware);
      kind := WriteKind(l, now, r, ClaimQueuedRun(l.runs[r], now, claimedBy, subject, tokenHash, aware));
    }
  }

  lemma ReleaseKind(l: Ledger, now: int, r: RunId, claimedBy: string, tokenHash: string, deferredUntil: Option<int>)
    returns (kind: Kind)
    requires Inv(l, now)
    ensures StepIs(l, ReleaseRun(l, now, r, claimedBy, tokenHash, deferredUntil), kind, now)
    ensures !kind.Lawfully?
  {
    kind := Quiet;
    if r in l.runs && MayRelease(l.runs[r], claimedBy, tokenHash) {
      TaskExists(l, r, now);
      ReadsHeld(l, r, now);
      QueueTouches(now, l.task.value, l.runs[r], EmptyQueue(deferredUntil));
      kind := WriteKind(l, now, r, l.runs[r].(queue := Some(EmptyQueue(deferredUntil)), updatedAt := now));
    }
  }

  lemma QueueKind(l: Ledger, now: int, event: Event) returns (kind: Kind)
    requires Inv(l, now) && (event.Enqueued? || event.ClaimTaken? || event.ClaimReleased?)
    ensures StepIs(l, QueueStep(l, now, event), kind, now)
    ensures !kind.Lawfully?
  {
    match event {
      case Enqueued(r) => kind := EnqueueKind(l, now, r);
      case ClaimTaken(r, claimedBy, subject, tokenHash, aware) =>
        kind := ClaimKind(l, now, r, claimedBy, subject, tokenHash, aware);
      case ClaimReleased(r, claimedBy, tokenHash, deferredUntil) =>
        kind := ReleaseKind(l, now, r, claimedBy, tokenHash, deferredUntil);
    }
  }

  lemma EntryKind(l: Ledger, now: int, event: Event) returns (kind: Kind)
    ensures StepIs(l, EntryStep(l, now, event), kind, now)
    ensures !kind.Lawfully?
  {
    kind := Quiet;
  }

  lemma TaskOutcomeChanges(l: Ledger, now: int, event: Event)
    requires MutexInv(l) && TaskOutcome(l, now, event).Decided?
    ensures TaskChange(l, TaskOutcome(l, now, event).decision)
    ensures TaskOutcome(l, now, event).decision.task.consecutiveLost == l.task.value.consecutiveLost
  {
    if l.task.Some? && l.task.value.activeRunId.Some? { assert RunLocked(l, l.task.value.activeRunId.value); }
  }

  lemma TaskKind(l: Ledger, now: int, event: Event) returns (kind: Kind)
    requires Inv(l, now)
    ensures StepIs(l, CommitOutcome(l, TaskOutcome(l, now, event)), kind, now)
    ensures CommitsOutcome(kind, TaskOutcome(l, now, event))
  {
    kind := Quiet;
    if TaskOutcome(l, now, event).Decided? {
      TaskOutcomeChanges(l, now, event);
      kind := Lawfully(l, TaskOutcome(l, now, event).decision, TaskPlan);
    }
  }

  lemma UpkeepKind(l: Ledger, now: int, event: Event) returns (kind: Kind)
    requires Inv(l, now)
    ensures StepIs(l, Upkeep(l, now, event), kind, now)
    ensures CommitsOutcome(kind, TaskOutcome(l, now, event))
  {
    if event.Enqueued? || event.ClaimTaken? || event.ClaimReleased? {
      kind := QueueKind(l, now, event);
    } else if event.Closed? || event.WorkUpdated? || event.IssueRefreshed? {
      kind := TaskKind(l, now, event);
    } else {
      kind := EntryKind(l, now, event);
    }
  }

  lemma StepKind(l: Ledger, tick: Tick) returns (kind: Kind)
    requires Inv(l, tick.now) && Admissible(l.id, tick.event)
    ensures StepIs(l, Step(l, tick), kind, tick.now)
    ensures CommitsOutcome(kind, StepOutcome(l, tick))
  {
    match tick.event {
      case Requested(input) => kind := RequestKind(l, tick.now, input);
      case OnRun(r, cmd, cleanupId) => kind := RunKind(l, tick.now, r, cmd, cleanupId);
      case _ => kind := UpkeepKind(l, tick.now, tick.event);
    }
  }

  lemma KindPreserves(l: Ledger, k: Ledger, kind: Kind, now: int)
    requires Inv(l, now) && StepIs(l, k, kind, now)
    ensures Inv(k, now)
  {
    match kind {
      case Quiet => ExtendsPreserves(l, k, now);
      case Lawfully(base, d, plan) => LawfulPreserves(base, d, plan, now);
      case RunWrite(r, after) =>
        var d := Decision(l.task.value, Some(after), None, []);
        TouchPreserves(l, r, d, now);
        ExtendsPreserves(Commit(l, d), k, now);
    }
  }

  /** Every step preserves the invariant. */
  lemma StepPreserves(l: Ledger, tick: Tick, clock: int)
    requires Inv(l, clock) && clock <= tick.now && Admissible(l.id, tick.event)
    ensures Inv(Step(l, tick), tick.now) && Step(l, tick).id == l.id
  {
    InvLater(l, clock, tick.now);
    var kind := StepKind(l, tick);
    KindPreserves(l, Step(l, tick), kind, tick.now);
  }

  /** The invariant holds after every run of the machine. */
  lemma {:induction false} ExecPreserves(l: Ledger, trace: seq<Tick>, clock: int)
    requires Inv(l, clock) && Timely(l.id, clock, trace)
    ensures Inv(Exec(l, trace), ClockAfter(clock, trace)) && Exec(l, trace).id == l.id
    decreases |trace|
  {
    if trace != [] {
      StepPreserves(l, trace[0], clock);
      ExecPreserves(Step(l, trace[0]), trace[1..], trace[0].now);
    }
  }

  lemma EmptyIsGood(id: TaskId, clock: int)
    ensures Inv(EmptyLedger(id), clock)
  {
  }

  /** From the empty ledger every reachable state satisfies the invariant. */
  lemma ReachableIsGood(id: TaskId, trace: seq<Tick>, clock: int)
    requires Timely(id, clock, trace)
    ensures Inv(Exec(EmptyLedger(id), trace), ClockAfter(clock, trace))
  {
    EmptyIsGood(id, clock);
    ExecPreserves(EmptyLedger(id), trace, clock);
  }
}
