/** An open credential operation fences its run: only a finish ends it, and until
    then the claim and the order of its mutations are fixed. */
module CredentialFence {
  import opened Model
  import opened Decide
  import opened Credential
  import opened Orchestrator
  import opened Ledgers
  import opened Invariants
  import opened Primitives
  import opened Lawful
  import opened CommandPlans
  import opened RequestPlans
  import opened Machine
  import opened History
  import opened Frames

  predicate IsFinish(cmd: RunCommand) {
    cmd.OperationFinished? || (cmd.OperationChanged? && cmd.change.Finish?)
  }

  predicate FinishesOn(event: Event, r: RunId) {
    event.OnRun? && event.run == r && IsFinish(event.cmd)
  }

  ghost predicate Open(l: Ledger, r: RunId) {
    r in l.runs && l.runs[r].credentialOperation.Some?
  }

  // ------------------------------------------------------------- what a step spares

  /** The decision writes no run named `o`. */
  ghost predicate Elsewhere(d: Decision, o: RunId) {
    && (d.run.Some? ==> d.run.value.runId != o)
    && (d.additionalRun.Some? ==> d.additionalRun.value.runId != o)
  }

  lemma TouchElsewhere(l: Ledger, d: Decision, r: RunId, now: int, o: RunId)
    requires MutexInv(l) && r in l.runs && l.task.Some? && Touches(l.task.value, l.runs[r], d, now) && o != r
    ensures Elsewhere(d, o) && RunCount(Commit(l, d)) == RunCount(l) && Commit(l, d).id == l.id
  {
    assert RunLocked(l, r);
  }

  lemma MintElsewhere(l: Ledger, d: Decision, now: int, o: RunId)
    requires Mints(l, d, now) && o.n <= RunCount(l)
    ensures Elsewhere(d, o)
  {
  }

  lemma SequenceElsewhere(l: Ledger, touch: Decision, mint: Decision, r: RunId, now: int, o: RunId)
    requires MutexInv(l) && TouchThenMint(l, r, touch, mint, now) && o != r && o.n <= RunCount(l)
    ensures Elsewhere(Followed(touch, mint), o) && Elsewhere(Joined(touch, mint), o)
  {
    TouchElsewhere(l, touch, r, now, o);
    MintElsewhere(Commit(l, touch), mint, now, o);
  }

  /** A commit writes only the run of its plan and the run it mints. */
  lemma PlanSpares(l: Ledger, d: Decision, plan: Plan, now: int, o: RunId)
    requires MutexInv(l) && Follows(l, d, plan, now) && o in l.runs
    requires plan.TaskPlan? || plan.MintPlan? || plan.run != o
    ensures o in Commit(l, d).runs && Commit(l, d).runs[o] == l.runs[o]
  {
    assert RunLocked(l, o);
    PlanElsewhere(l, d, plan, now, o);
  }

  lemma PlanElsewhere(l: Ledger, d: Decision, plan: Plan, now: int, o: RunId)
    requires MutexInv(l) && Follows(l, d, plan, now) && o.n <= RunCount(l)
    requires plan.TaskPlan? || plan.MintPlan? || plan.run != o
    ensures Elsewhere(d, o)
  {
    match plan {
      case TouchPlan(r) => TouchElsewhere(l, d, r, now, o);
      case TaskPlan =>
      case MintPlan => MintElsewhere(l, d, now, o);
      case FollowPlan(r, touch, mint) => SequenceElsewhere(l, touch, mint, r, now, o);
      case JoinPlan(r, touch, mint) => SequenceElsewhere(l, touch, mint, r, now, o);
    }
  }

  /** The run of a command becomes what its decision says. */
  lemma PlanWrites(l: Ledger, r: RunId, d: Decision, plan: Plan, now: int)
    requires Reads(l, r, now) && Executes(l, r, d, plan, now)
    ensures r in Commit(l, d).runs
    ensures Commit(l, d).runs[r] == if d.run.Some? then d.run.value else l.runs[r]
    ensures d.run.None? ==> plan.TaskPlan?
  {
    assert RunLocked(l, r);
  }

  /** A request never touches a claimed run. */
  lemma RequestSpares(l: Ledger, now: int, input: RequestInput, o: RunId)
    requires Inv(l, now) && GoodInput(input) && input.taskId == l.id
    requires o in l.runs && IsClaimed(l.runs[o])
    ensures var k := TransactRequest(l, now, input); o in k.runs && k.runs[o] == l.runs[o]
  {
    RequestWrites(l, now, input);
    var outcome := RequestOutcome(l, now, input);
    if outcome.Decided? {
      var plan := RequestOutcomePlan(l, now, input, outcome.decision);
      RecordedExtends(l, input, outcome.decision);
      PlanSpares(Recorded(l, input, outcome.decision), outcome.decision, plan, now, o);
    }
  }

  /** A command never touches another run. */
  lemma CommandSpares(l: Ledger, now: int, r: RunId, cmd: RunCommand, cleanupId: string, o: RunId)
    requires Inv(l, now) && o in l.runs && o != r
    ensures var k := TransactRun(l, now, r, cmd, cleanupId); o in k.runs && k.runs[o] == l.runs[o]
  {
    var outcome := RunOutcome(l, now, r, cmd, cleanupId);
    if outcome.Decided? {
      var plan := RunOutcomePlan(l, now, r, cmd, cleanupId);
      PlanSpares(l, outcome.decision, plan, now, o);
    }
  }

  lemma QueueSpares(l: Ledger, now: int, event: Event, o: RunId)
    requires o in l.runs && GoodOperation(l.runs[o]) && MutexInv(l)
    requires event.Enqueued? || event.ClaimTaken? || event.ClaimReleased?
    ensures var k := QueueStep(l, now, event);
            && o in k.runs && k.runs[o].state == l.runs[o].state
            && (l.runs[o].credentialOperation.Some? ==> k.runs[o] == l.runs[o])
  {
    if event.run in l.runs { assert RunLocked(l, event.run); }
  }

  /** Task-only writes and outbox bookkeeping write no run. */
  lemma TaskWritesNoRun(l: Ledger, now: int, event: Event)
    ensures CommitOutcome(l, TaskOutcome(l, now, event)).runs == l.runs
  {
  }

  lemma EntryWritesNoRun(l: Ledger, now: int, event: Event)
    ensures EntryStep(l, now, event).runs == l.runs
  {
  }

  /** Enqueue, claim and release never settle a run, and leave an open operation alone. */
  lemma UpkeepSpares(l: Ledger, now: int, event: Event, o: RunId)
    requires o in l.runs && GoodRun(l.runs[o], now) && MutexInv(l)
    ensures var k := Upkeep(l, now, event);
            && o in k.runs && k.runs[o].state == l.runs[o].state
            && (l.runs[o].credentialOperation.Some? ==> k.runs[o] == l.runs[o])
  {
    if event.Enqueued? || event.ClaimTaken? || event.ClaimReleased? {
      QueueSpares(l, now, event, o);
    } else {
      TaskWritesNoRun(l, now, event);
      EntryWritesNoRun(l, now, event);
    }
  }

  // ----------------------------------------------------------------- the operation stays

  lemma OutcomeHolds(now: int, t: Task, run: Run, cmd: RunCommand, cleanupId: string, d: Decision)
    requires IsLive(run.state) ==> t.activeRunId == Some(run.runId)
    requires run.credentialOperation.Some? && !IsFinish(cmd)
    requires DecideOnRun(now, t, run, cmd, cleanupId) == Decided(d)
    ensures d.run.Some? ==> d.run.value.credentialOperation.Some?
  {
    var e := DecideCommand(now, t, run, cmd).decision;
    CommandFrame(now, t, run, cmd, e);
    if cmd.OperationChanged? { ChangeFrame(now, t, run, cmd.changeId, cmd.changeFingerprint, cmd.change, e); }
  }

  lemma CommandHolds(l: Ledger, now: int, r: RunId, cmd: RunCommand, cleanupId: string)
    requires Inv(l, now) && Open(l, r) && !IsFinish(cmd)
    ensures Open(TransactRun(l, now, r, cmd, cleanupId), r)
  {
    var outcome := RunOutcome(l, now, r, cmd, cleanupId);
    if outcome.Decided? {
      var plan := RunOutcomePlan(l, now, r, cmd, cleanupId);
      ReadsHeld(l, r, now);
      OutcomeHolds(now, l.task.value, l.runs[r], cmd, cleanupId, outcome.decision);
      PlanWrites(l, r, outcome.decision, plan, now);
    }
  }

  /** No step but a finish of that very run removes an open operation. */
  lemma StepHolds(l: Ledger, tick: Tick, clock: int, r: RunId)
    requires Inv(l, clock) && clock <= tick.now && Admissible(l.id, tick.event)
    requires Open(l, r) && !FinishesOn(tick.event, r)
    ensures Open(Step(l, tick), r)
  {
    InvLater(l, clock, tick.now);
    assert GoodRun(l.runs[r], tick.now);
    match tick.event {
      case Requested(input) => RequestSpares(l, tick.now, input, r);
      case OnRun(o, cmd, cleanupId) =>
        if o == r {
          CommandHolds(l, tick.now, r, cmd, cleanupId);
        } else {
          CommandSpares(l, tick.now, o, cmd, cleanupId, r);
        }
      case _ => UpkeepSpares(l, tick.now, tick.event, r);
    }
  }

  // --------------------------------------------------------------------- over histories

  /** The same operation on the same claim. */
  ghost predicate SameFence(a: Run, b: Run) {
    && a.credentialOperation.Some? && b.credentialOperation.Some?
    && (var x, y := a.credentialOperation.value, b.credentialOperation.value;
        && y.id == x.id && y.kind == x.kind && y.claimFingerprint == x.claimFingerprint
        && x.mutationSequence <= y.mutationSequence <= 100)
    && IsClaimed(a) && IsClaimant(b, a.credentialOperation.value.claimFingerprint)
    && SameClaim(a.queue.value, b.queue.value)
  }

  lemma FenceMoves(a: Run, b: Run, now: int)
    requires GoodRun(a, now) && GoodRun(b, now) && RunMoves(a, b)
    requires a.credentialOperation.Some? && b.credentialOperation.Some?
    ensures SameFence(a, b)
  {
  }

  lemma StepFences(l: Ledger, tick: Tick, clock: int, r: RunId)
    requires Inv(l, clock) && clock <= tick.now && Admissible(l.id, tick.event)
    requires Open(l, r) && !FinishesOn(tick.event, r)
    ensures Open(Step(l, tick), r) && SameFence(l.runs[r], Step(l, tick).runs[r])
    ensures Prepares(l.runs[r].credentialOperation, Step(l, tick).runs[r].credentialOperation)
  {
    var k := Step(l, tick);
    StepHolds(l, tick, clock, r);
    StepMoves(l, tick, clock);
    StepPreserves(l, tick, clock);
    InvLater(l, clock, tick.now);
    assert RunMoves(l.runs[r], k.runs[r]) && GoodRun(l.runs[r], tick.now) && GoodRun(k.runs[r], tick.now);
    FenceMoves(l.runs[r], k.runs[r], tick.now);
    StepPrepares(l.runs[r], k.runs[r]);
  }

  /** No step of the history finishes an operation of the run. */
  ghost predicate Unfinished(trace: seq<Tick>, r: RunId) {
    forall i | 0 <= i < |trace| :: !FinishesOn(trace[i].event, r)
  }

  lemma UnfinishedRest(trace: seq<Tick>, r: RunId)
    requires Unfinished(trace, r) && trace != []
    ensures Unfinished(trace[1..], r) && !FinishesOn(trace[0].event, r)
  {
  }

  /** The first step of a history without a finish. */
  lemma NextFences(l: Ledger, trace: seq<Tick>, clock: int, r: RunId)
    requires Inv(l, clock) && Timely(l.id, clock, trace) && Open(l, r) && trace != []
    requires Unfinished(trace, r)
    ensures var k := Step(l, trace[0]);
            && Inv(k, trace[0].now) && k.id == l.id && Timely(k.id, trace[0].now, trace[1..])
            && Open(k, r) && SameFence(l.runs[r], k.runs[r])
            && Prepares(l.runs[r].credentialOperation, k.runs[r].credentialOperation)
            && Unfinished(trace[1..], r)
  {
    UnfinishedRest(trace, r);
    StepFences(l, trace[0], clock, r);
    StepPreserves(l, trace[0], clock);
  }

  /** Until it is finished, an operation keeps its identity and its run keeps its
      claim, whatever else happens to the task. */
  lemma {:induction false} FenceHolds(l: Ledger, trace: seq<Tick>, clock: int, r: RunId)
    requires Inv(l, clock) && Timely(l.id, clock, trace) && Open(l, r)
    requires Unfinished(trace, r)
    ensures Open(Exec(l, trace), r) && SameFence(l.runs[r], Exec(l, trace).runs[r])
    decreases |trace|
  {
    if trace == [] {
      FenceStays(l.runs[r], clock);
    } else {
      var k, rest := Step(l, trace[0]), trace[1..];
      NextFences(l, trace, clock, r);
      FenceHolds(k, rest, trace[0].now, r);
      FenceChains(l.runs[r], k.runs[r], Exec(k, rest).runs[r]);
    }
  }

  lemma FenceStays(a: Run, now: int)
    requires GoodRun(a, now) && a.credentialOperation.Some?
    ensures SameFence(a, a)
  {
  }

  lemma FenceChains(a: Run, b: Run, c: Run)
    requires SameFence(a, b) && SameFence(b, c)
    ensures SameFence(a, c)
  {
  }

  // ------------------------------------------------------------------------ mutations

  /** The mutation a step prepares, if any. */
  function PreparedBy(before: Option<CredentialOperation>, after: Option<CredentialOperation>): seq<MutationId> {
    if after.Some? && after.value.mutation.Some? && (before.None? || before.value.mutation != after.value.mutation)
    then [after.value.mutation.value.id] else []
  }

  function OperationAt(l: Ledger, r: RunId): Option<CredentialOperation> {
    if r in l.runs then l.runs[r].credentialOperation else None
  }

  function PreparedIn(l: Ledger, trace: seq<Tick>, r: RunId): seq<MutationId>
    decreases |trace|
  {
    if trace == [] then []
    else var k := Step(l, trace[0]);
         PreparedBy(OperationAt(l, r), OperationAt(k, r)) + PreparedIn(k, trace[1..], r)
  }

  /** The numbers from just after `first` up to `last`. */
  function Numbered(id: string, first: nat, last: nat): seq<MutationId>
    requires first <= last
  {
    seq(last - first, i requires 0 <= i => MutationId(id, first + 1 + i))
  }

  /** What was prepared is the next number, and nothing was outstanding before it. */
  ghost predicate Prepares(before: Option<CredentialOperation>, after: Option<CredentialOperation>) {
    && before.Some? && after.Some?
    && before.value.mutationSequence <= after.value.mutationSequence
    && PreparedBy(before, after) == Numbered(before.value.id, before.value.mutationSequence,
                                             after.value.mutationSequence)
    && (before.value.mutationSequence < after.value.mutationSequence ==> before.value.mutation.None?)
  }

  lemma StepPrepares(a: Run, b: Run)
    requires a.credentialOperation.Some? && b.credentialOperation.Some?
    requires GoodOperation(b) && OperationMoves(a.credentialOperation, b.credentialOperation)
    ensures Prepares(a.credentialOperation, b.credentialOperation)
  {
    assert GoodOperation(b);
  }

  /** The mutations prepared under an operation are numbered on from its sequence,
      one by one and without gaps, each after the last was acknowledged. */
  lemma {:induction false} MutationsAreSequential(l: Ledger, trace: seq<Tick>, clock: int, r: RunId)
    requires Inv(l, clock) && Timely(l.id, clock, trace) && Open(l, r)
    requires Unfinished(trace, r)
    ensures Open(Exec(l, trace), r)
    ensures var x, y := OperationAt(l, r).value, OperationAt(Exec(l, trace), r).value;
            && x.mutationSequence <= y.mutationSequence <= 100
            && PreparedIn(l, trace, r) == Numbered(x.id, x.mutationSequence, y.mutationSequence)
    decreases |trace|
  {
    if trace == [] {
      assert GoodRun(l.runs[r], clock);
    } else {
      var k, rest := Step(l, trace[0]), trace[1..];
      NextFences(l, trace, clock, r);
      MutationsAreSequential(k, rest, trace[0].now, r);
      assert Exec(l, trace) == Exec(k, rest) && PreparedIn(l, trace, r) ==
             PreparedBy(OperationAt(l, r), OperationAt(k, r)) + PreparedIn(k, rest, r);
      NumberedJoin(OperationAt(l, r).value.id, OperationAt(l, r).value.mutationSequence,
                   OperationAt(k, r).value.mutationSequence, OperationAt(Exec(k, rest), r).value.mutationSequence);
    }
  }

  lemma NumberedJoin(id: string, a: nat, b: nat, c: nat)
    requires a <= b <= c
    ensures Numbered(id, a, b) + Numbered(id, b, c) == Numbered(id, a, c)
  {
  }

  /** In every reachable state an operation belongs to the run's claimant, and its
      outstanding mutation carries the current number. */
  lemma OperationIsClaimants(id: TaskId, trace: seq<Tick>, clock: int, r: RunId)
    requires Timely(id, clock, trace)
    ensures var l := Exec(EmptyLedger(id), trace);
            Open(l, r) ==>
              var op := l.runs[r].credentialOperation.value;
              && (l.runs[r].pipeline == Codex
                  || (l.runs[r].pipeline == Goose && l.runs[r].params.providerAuth == Some(Codex)))
              && IsClaimed(l.runs[r]) && l.runs[r].queue.value.tokenHash == Some(op.claimFingerprint)
              && op.mutationSequence <= 100
              && (op.mutation.Some? ==> op.mutation.value.id == MutationId(op.id, op.mutationSequence))
  {
    ReachableIsGood(id, trace, clock);
    var l := Exec(EmptyLedger(id), trace);
    if Open(l, r) { assert GoodRun(l.runs[r], ClockAfter(clock, trace)); }
  }
}
