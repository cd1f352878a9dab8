/** The orchestrator's loops over the store: sweeping expired leases, and rerouting
    a rotating batch of queued runs. */
module Sweeps {
  import opened Model
  import opened Decide
  import opened Fallback
  import opened Orchestrator
  import opened Ledgers
  import opened Invariants
  import opened Primitives
  import opened CommandPlans
  import opened Machine
  import opened History
  import opened Tables
  import opened MemoryStores
  import opened Linearization
  import CodexDebt
  import CredentialFence
  import Reports

  // -------------------------------------------------------------------- expired leases

  predicate Expired(run: Run, now: int) {
    IsLive(run.state) && RecoveryDeadlineElapsed(run, now)
  }

  lemma SliceRun(t: Tables, r: RunId)
    ensures r in t.runs <==> r in Slice(t, r.task).runs
    ensures r in t.runs ==> Slice(t, r.task).runs[r] == t.runs[r]
  {
  }

  /** A step on another task leaves a run alone. */
  lemma OtherTaskKeeps(before: Tables, after: Tables, id: TaskId, k: Ledger, r: RunId)
    requires OnlySlice(before, after, id, k) && r.task != id && r in before.runs
    ensures r in after.runs && after.runs[r] == before.runs[r]
  {
    SliceRun(before, r);
    SliceRun(after, r);
    assert Slice(after, r.task) == Slice(before, r.task);
  }

  /** The run ended lost, to the expiry of this instant. */
  predicate LostToExpiry(run: Run, now: int) {
    && run.state.Lost? && run.events != []
    && var last := run.events[|run.events| - 1]; last.at == now && last.to.Lost? && last.actor.ByExpiry?
  }

  lemma LossSettles(now: int, t: Task, run: Run)
    requires Expired(run, now) && t.activeRunId == Some(run.runId) && run.credentialOperation.None?
    ensures var o := ExpireLeaseAndRetry(now, t, run);
            o.Decided? && o.decision.run.Some? && LostToExpiry(o.decision.run.value, now)
  {
  }

  /** An expired run without open external work is settled as lost. */
  lemma ExpirySettles(l: Ledger, now: int, r: RunId, cleanupId: string)
    requires Inv(l, now) && r in l.runs && Expired(l.runs[r], now)
    ensures var k := TransactRun(l, now, r, LeaseExpired, cleanupId);
            if l.runs[r].credentialOperation.None?
            then RunOutcome(l, now, r, LeaseExpired, cleanupId).Decided? && r in k.runs && LostToExpiry(k.runs[r], now)
            else RunOutcome(l, now, r, LeaseExpired, cleanupId) == Refuse(CredentialOperationPending)
  {
    TaskExists(l, r, now);
    ReadsHeld(l, r, now);
    if l.runs[r].credentialOperation.None? {
      LossSettles(now, l.task.value, l.runs[r]);
      LossCommits(l, now, r, cleanupId, ExpireLeaseAndRetry(now, l.task.value, l.runs[r]).decision);
    }
  }

  lemma LossCommits(l: Ledger, now: int, r: RunId, cleanupId: string, d: Decision)
    requires Reads(l, r, now) && DecideCommand(now, l.task.value, l.runs[r], LeaseExpired) == Decided(d)
    requires d.run.Some? && LostToExpiry(d.run.value, now)
    ensures RunOutcome(l, now, r, LeaseExpired, cleanupId).Decided?
    ensures var k := TransactRun(l, now, r, LeaseExpired, cleanupId); r in k.runs && LostToExpiry(k.runs[r], now)
  {
    CodexDebt.CleanupNeverRefused(l, now, r, LeaseExpired, cleanupId, d);
    ExpiredRun(now, l.task.value, l.runs[r], cleanupId, d);
    OutcomeWritten(l, now, r, LeaseExpired, cleanupId, RunOutcome(l, now, r, LeaseExpired, cleanupId).decision);
  }

  lemma ExpiredRun(now: int, t: Task, run: Run, cleanupId: string, d: Decision)
    requires DecideCommand(now, t, run, LeaseExpired) == Decided(d) && d.run.Some? && LostToExpiry(d.run.value, now)
    ensures var o := DecideOnRun(now, t, run, LeaseExpired, cleanupId);
            o.Decided? ==> o.decision.run.Some? && LostToExpiry(o.decision.run.value, now)
  {
    CleanupState(run, d, cleanupId);
  }

  lemma OutcomeWritten(l: Ledger, now: int, r: RunId, cmd: RunCommand, cleanupId: string, d: Decision)
    requires Reads(l, r, now) && RunOutcome(l, now, r, cmd, cleanupId) == Decided(d) && d.run.Some?
    ensures var k := TransactRun(l, now, r, cmd, cleanupId); r in k.runs && k.runs[r] == d.run.value
  {
    var plan := RunOutcomePlan(l, now, r, cmd, cleanupId);
    CredentialFence.PlanWrites(l, r, d, plan, now);
  }

  lemma CleanupState(run: Run, d: Decision, cleanupId: string)
    requires d.run.Some?
    ensures var o := WithCleanup(run, Decided(d), cleanupId);
            o.Decided? ==> o.decision.run.Some? && o.decision.run.value.state == d.run.value.state
                           && o.decision.run.value.events == d.run.value.events
  {
  }

  // ------------------------------------------------------------------ rotating batches

  /** The batch of one sweep starts where the last one ended. */
  function BatchStart(offset: nat, count: nat): nat
    requires 0 < count
  {
    offset % count
  }

  function BatchIndex(offset: nat, i: nat, count: nat): nat
    requires 0 < count
  {
    (BatchStart(offset, count) + i) % count
  }

  /** The cursor after `sweeps` more batches over the same candidates. */
  function OffsetAfter(offset: nat, size: nat, count: nat, sweeps: nat): nat
    requires 0 < count
    decreases sweeps
  {
    if sweeps == 0 then offset else OffsetAfter(BatchStart(offset, count) + size, size, count, sweeps - 1)
  }

  lemma WrapOnce(x: nat, n: nat)
    requires x < n + n
    ensures 0 < n && x % n == if x < n then x else x - n
  {
  }

  lemma {:induction false} TriedWithin(offset: nat, size: nat, count: nat, candidate: nat, distance: nat)
    returns (sweep: nat, i: nat)
    requires 0 < size <= count && candidate < count && distance < count
    requires BatchStart(offset, count) + distance == candidate
             || BatchStart(offset, count) + distance == candidate + count
    ensures sweep * size <= distance && i < size
    ensures BatchIndex(OffsetAfter(offset, size, count, sweep), i, count) == candidate
    decreases distance
  {
    var start := BatchStart(offset, count);
    if distance < size {
      sweep, i := 0, distance;
      WrapOnce(start + distance, count);
    } else {
      WrapOnce(start + size, count);
      var later;
      later, i := TriedWithin(start + size, size, count, candidate, distance - size);
      sweep := later + 1;
      assert sweep * size == later * size + size;
    }
  }

  /** The candidates one sweep attempts. */
  function Batch(candidates: seq<RunId>, offset: nat, size: nat): seq<RunId>
    requires candidates != []
  {
    seq(size, i requires 0 <= i => candidates[BatchIndex(offset, i, |candidates|)])
  }

  const REROUTE_BATCH_MAX := 30

  /** A batch takes each candidate at most once, and never more than thirty. */
  function BatchSize(limit: int, count: nat): (size: nat)
    requires 0 < limit
    ensures size <= count && (0 < count ==> 0 < size)
  {
    var bounded := if limit < REROUTE_BATCH_MAX then limit else REROUTE_BATCH_MAX;
    if bounded < count then bounded else count
  }

  /** However long its refusals last, a candidate is attempted by one of the next sweeps
      over the list, before their batches have gone once around it. */
  lemma EveryCandidateIsTried(candidates: seq<RunId>, offset: nat, limit: int, candidate: nat) returns (sweep: nat)
    requires 0 < limit && candidate < |candidates|
    ensures sweep * BatchSize(limit, |candidates|) < |candidates|
    ensures var size := BatchSize(limit, |candidates|);
            candidates[candidate] in Batch(candidates, OffsetAfter(offset, size, |candidates|, sweep), size)
  {
    var count, size := |candidates|, BatchSize(limit, |candidates|);
    var start := BatchStart(offset, count);
    var i;
    sweep, i := TriedWithin(offset, size, count, candidate,
                            if start <= candidate then candidate - start else candidate + count - start);
    assert Batch(candidates, OffsetAfter(offset, size, count, sweep), size)[i] == candidates[candidate];
  }

  // -------------------------------------------------------------------------- the loops

  lemma StepSpares(before: Tables, after: Tables, now: int, r: RunId, cmd: RunCommand, cleanupId: string, o: RunId)
    requires AllGood(before, now) && o in before.runs && o != r
    requires OnlySlice(before, after, r.task, TransactRun(Slice(before, r.task), now, r, cmd, cleanupId))
    ensures o in after.runs && after.runs[o] == before.runs[o]
  {
    if o.task != r.task {
      OtherTaskKeeps(before, after, r.task, TransactRun(Slice(before, r.task), now, r, cmd, cleanupId), o);
    } else {
      SliceRun(before, o);
      SliceRun(after, o);
      SliceGood(before, r.task, now);
      CredentialFence.CommandSpares(Slice(before, r.task), now, r, cmd, cleanupId, o);
    }
  }

  /** The task and its active run, as the maps give them. */
  function TaskDecision(t: Tables, now: int, id: TaskId, event: Event): Outcome {
    var task := if id in t.tasks then Some(t.tasks[id].task) else None;
    DecideTask(task, if task.Some? && task.value.activeRunId.Some? then RunIn(t, task.value.activeRunId.value)
                     else None,
               now, event)
  }

  lemma TaskDecided(t: Tables, now: int, id: TaskId, event: Event, clock: int)
    requires AllGood(t, clock) && clock <= now && IsTaskEvent(event)
    ensures TaskDecision(t, now, id, event) == TaskOutcome(Slice(t, id), now, event)
    ensures OnlySlice(t, Committed(t, TaskDecision(t, now, id, event)), id, Step(Slice(t, id), Tick(now, event)))
    ensures AllGood(Committed(t, TaskDecision(t, now, id, event)), now)
    ensures TaskDecision(t, now, id, event).Decided? ==> TaskDecision(t, now, id, event).decision.task.task == id
  {
    GoodLater(t, clock, now);
    SliceGood(t, id, now);
    ActiveSliced(t, id, now);
    var o := TaskDecision(t, now, id, event);
    if o.Decided? { TaskWriteGood(t, now, id, event, o.decision); }
  }

  /** Every run but `r` is what it was. */
  ghost predicate Spared(before: map<RunId, Run>, after: map<RunId, Run>, r: RunId) {
    forall o | o in before && o != r :: o in after && after[o] == before[o]
  }

  ghost predicate SparedBut(before: map<RunId, Run>, after: map<RunId, Run>, rs: seq<RunId>) {
    forall o | o in before && o !in rs :: o in after && after[o] == before[o]
  }

  lemma StepSparesAll(before: Tables, after: Tables, now: int, r: RunId, cmd: RunCommand, cleanupId: string)
    requires AllGood(before, now)
    requires OnlySlice(before, after, r.task, TransactRun(Slice(before, r.task), now, r, cmd, cleanupId))
    ensures Spared(before.runs, after.runs, r)
  {
    forall o | o in before.runs && o != r ensures o in after.runs && after.runs[o] == before.runs[o] {
      StepSpares(before, after, now, r, cmd, cleanupId, o);
    }
  }

  /** The expired runs a sweep settles: those without open external work. */
  predicate Loses(runs: map<RunId, Run>, r: RunId, now: int) {
    r in runs && Expired(runs[r], now) && runs[r].credentialOperation.None?
  }

  /** A sweep part of the way: what is pending or never expired is untouched. */
  ghost predicate SweptUpTo(before: map<RunId, Run>, after: map<RunId, Run>, pending: set<RunId>, now: int) {
    forall r | r in before ::
      && r in after
      && if r in pending || !Expired(before[r], now) then after[r] == before[r] else Swept(before[r], after[r], now)
  }

  /** Runs stay, as what they were asked; a settled one stays settled. */
  ghost predicate Kept(before: map<RunId, Run>, after: map<RunId, Run>) {
    forall o | o in before ::
      && o in after && SameIdentity(before[o], after[o])
      && (!IsLive(before[o].state) ==> after[o].state == before[o].state)
  }

  lemma StepKeepsAll(before: Tables, after: Tables, now: int, r: RunId, cmd: RunCommand, cleanupId: string)
    requires AllGood(before, now)
    requires OnlySlice(before, after, r.task, TransactRun(Slice(before, r.task), now, r, cmd, cleanupId))
    ensures Kept(before.runs, after.runs)
  {
    StepSparesAll(before, after, now, r, cmd, cleanupId);
    if r in before.runs {
      SliceRun(before, r);
      SliceRun(after, r);
      SliceGood(before, r.task, now);
      CommandKeeps(Slice(before, r.task), now, r, cmd, cleanupId);
    }
  }

  lemma CommandKeeps(l: Ledger, now: int, r: RunId, cmd: RunCommand, cleanupId: string)
    requires Inv(l, now) && r in l.runs
    ensures var k := TransactRun(l, now, r, cmd, cleanupId);
            && r in k.runs && SameIdentity(l.runs[r], k.runs[r])
            && (!IsLive(l.runs[r].state) ==> k.runs[r].state == l.runs[r].state)
  {
    StepMoves(l, Tick(now, OnRun(r, cmd, cleanupId)), now);
    assert RunMoves(l.runs[r], Step(l, Tick(now, OnRun(r, cmd, cleanupId))).runs[r]);
  }

  /** The run was given up for another of its task, on another provider, made to replace it. */
  ghost predicate GivenUpFor(runs: map<RunId, Run>, r: RunId, s: RunId)
    requires r in runs
  {
    && s in runs && s.task == r.task && runs[s].pipeline != runs[r].pipeline
    && runs[s].requestId == FallbackOf(r)
    && runs[s].providerFallback.Some? && runs[s].providerFallback.value.fromRunId == Some(r)
  }

  /** What a reroute makes of a run. */
  ghost predicate Moved(runs: map<RunId, Run>, r: RunId) {
    r in runs && runs[r].state.Canceled? && exists s :: GivenUpFor(runs, r, s)
  }

  lemma MovedStays(before: map<RunId, Run>, after: map<RunId, Run>, r: RunId)
    requires Kept(before, after) && Moved(before, r)
    ensures Moved(after, r)
  {
    var s :| GivenUpFor(before, r, s);
    assert GivenUpFor(after, r, s);
  }

  lemma RerouteCommits(l: Ledger, now: int, r: RunId, cmd: RunCommand, cleanupId: string)
    requires Inv(l, now) && cmd.QueuedRerouted? && RunOutcome(l, now, r, cmd, cleanupId).Decided?
    ensures Moved(TransactRun(l, now, r, cmd, cleanupId).runs, r)
  {
    var d := RunOutcome(l, now, r, cmd, cleanupId).decision;
    ReadsHeld(l, r, now);
    Reports.RerouteWrites(now, l.task.value, l.runs[r], cmd.cooldown.value, cmd.rerouteAuthority, cleanupId, d);
    OutcomeWritten(l, now, r, cmd, cleanupId, d);
    assert RunLocked(l, r);
    var s := d.additionalRun.value.runId;
    assert Commit(l, d).runs[s] == d.additionalRun.value;
    assert GivenUpFor(Commit(l, d).runs, r, s);
  }

  lemma RerouteMoves(before: Tables, after: Tables, now: int, r: RunId, cmd: RunCommand, cleanupId: string)
    requires AllGood(before, now) && cmd.QueuedRerouted?
    requires OnlySlice(before, after, r.task, TransactRun(Slice(before, r.task), now, r, cmd, cleanupId))
    requires RunOutcome(Slice(before, r.task), now, r, cmd, cleanupId).Decided?
    ensures Moved(after.runs, r)
  {
    SliceGood(before, r.task, now);
    RerouteCommits(Slice(before, r.task), now, r, cmd, cleanupId);
    var k := TransactRun(Slice(before, r.task), now, r, cmd, cleanupId);
    var s :| GivenUpFor(k.runs, r, s);
    SliceRun(after, r);
    SliceRun(after, s);
    assert GivenUpFor(after.runs, r, s);
  }

  /** One attempt: the reroute of its run, as its own transaction and nothing else. */
  ghost function RerouteStep(now: int, cooldown: RunId -> Option<Cooldown>, authority: RunId -> Authority,
                             cleanupId: string): (Tables, Tables, RunId) -> bool
  {
    (before: Tables, after: Tables, r: RunId) =>
      OnlySlice(before, after, r.task, TransactRun(Slice(before, r.task), now, r,
                                                   QueuedRerouted(cooldown(r), authority(r)), cleanupId))
  }

  /** It succeeds exactly if that transaction is decided. */
  ghost function RerouteSucceeds(now: int, cooldown: RunId -> Option<Cooldown>, authority: RunId -> Authority,
                                 cleanupId: string): (Tables, RunId) -> bool
  {
    (state: Tables, r: RunId) =>
      RunOutcome(Slice(state, r.task), now, r, QueuedRerouted(cooldown(r), authority(r)), cleanupId).Decided?
  }

  /** The stores between attempts, from the first to the last. */
  ghost predicate Attempts(states: seq<Tables>, attempted: seq<RunId>, step: (Tables, Tables, RunId) -> bool) {
    && |states| == |attempted| + 1
    && forall i | 0 <= i < |attempted| :: AttemptAt(states, attempted, step, i)
  }

  ghost predicate AttemptAt(states: seq<Tables>, attempted: seq<RunId>, step: (Tables, Tables, RunId) -> bool, i: nat)
    requires i < |attempted| < |states|
  {
    step(states[i], states[i + 1], attempted[i])
  }

  /** The attempts that succeeded, in their order. */
  ghost function Taken(states: seq<Tables>, attempted: seq<RunId>, succeeds: (Tables, RunId) -> bool): seq<RunId>
    requires |attempted| < |states|
  {
    if attempted == [] then []
    else
      var n := |attempted| - 1;
      Taken(states, attempted[..n], succeeds) + if succeeds(states[n], attempted[n]) then [attempted[n]] else []
  }

  lemma {:induction false} TakenSoFar(states: seq<Tables>, state: Tables, attempted: seq<RunId>,
                                      succeeds: (Tables, RunId) -> bool)
    requires |attempted| < |states|
    ensures Taken(states + [state], attempted, succeeds) == Taken(states, attempted, succeeds)
    decreases |attempted|
  {
    if attempted != [] { TakenSoFar(states, state, attempted[..|attempted| - 1], succeeds); }
  }

  lemma AttemptsNext(states: seq<Tables>, last: Tables, attempted: seq<RunId>, r: RunId,
                     step: (Tables, Tables, RunId) -> bool, succeeds: (Tables, RunId) -> bool)
    requires Attempts(states, attempted, step) && step(states[|attempted|], last, r)
    ensures Attempts(states + [last], attempted + [r], step)
    ensures Taken(states + [last], attempted + [r], succeeds)
         == Taken(states, attempted, succeeds) + if succeeds(states[|attempted|], r) then [r] else []
  {
    TakenSoFar(states, last, attempted, succeeds);
    forall i | 0 <= i <= |attempted| ensures AttemptAt(states + [last], attempted + [r], step, i) {
      if i < |attempted| { assert AttemptAt(states, attempted, step, i); }
    }
    assert (attempted + [r])[..|attempted|] == attempted;
  }

  /** Runs that moved, and every other as it was. */
  ghost predicate MovedOnly(before: map<RunId, Run>, after: map<RunId, Run>, rerouted: seq<RunId>) {
    (forall r | r in rerouted :: Moved(after, r)) && SparedBut(before, after, rerouted)
  }

  lemma MovedNext(first: map<RunId, Run>, before: map<RunId, Run>, after: map<RunId, Run>, r: RunId,
                  rerouted: seq<RunId>)
    requires MovedOnly(first, before, rerouted) && Kept(before, after) && Spared(before, after, r) && Moved(after, r)
    ensures MovedOnly(first, after, rerouted + [r])
  {
    forall o | o in rerouted ensures Moved(after, o) { MovedStays(before, after, o); }
  }

  /** Some attempts on, from the first store to the last: `rerouted` succeeded and moved. */
  ghost predicate Progress(states: seq<Tables>, first: Tables, last: Tables, attempted: seq<RunId>,
                           rerouted: seq<RunId>, step: (Tables, Tables, RunId) -> bool,
                           succeeds: (Tables, RunId) -> bool) {
    && Attempts(states, attempted, step) && states[0] == first && states[|attempted|] == last
    && rerouted == Taken(states, attempted, succeeds)
    && MovedOnly(first.runs, last.runs, rerouted)
  }

  lemma ProgressStarts(state: Tables, step: (Tables, Tables, RunId) -> bool, succeeds: (Tables, RunId) -> bool)
    ensures Progress([state], state, state, [], [], step, succeeds)
  {
  }

  lemma ProgressNext(states: seq<Tables>, first: Tables, before: Tables, after: Tables, attempted: seq<RunId>,
                     rerouted: seq<RunId>, r: RunId, step: (Tables, Tables, RunId) -> bool,
                     succeeds: (Tables, RunId) -> bool)
    requires Progress(states, first, before, attempted, rerouted, step, succeeds) && step(before, after, r)
    requires Kept(before.runs, after.runs) && Spared(before.runs, after.runs, r)
    requires if succeeds(before, r) then Moved(after.runs, r) else after.runs == before.runs
    ensures Progress(states + [after], first, after, attempted + [r],
                     rerouted + (if succeeds(before, r) then [r] else []), step, succeeds)
  {
    AttemptsNext(states, after, attempted, r, step, succeeds);
    if succeeds(before, r) { MovedNext(first.runs, before.runs, after.runs, r, rerouted); }
  }

  lemma SweptNext(before: map<RunId, Run>, current: map<RunId, Run>, after: map<RunId, Run>, pending: set<RunId>,
                  now: int,
                  r: RunId)
    requires SweptUpTo(before, current, pending, now) && Spared(current, after, r)
    requires r in pending && r in before && Expired(before[r], now) && r in after && Swept(before[r], after[r], now)
    ensures SweptUpTo(before, after, pending - {r}, now)
  {
  }

  /** What a sweep makes of an expired run. */
  ghost predicate Swept(before: Run, after: Run, now: int) {
    if before.credentialOperation.None? then LostToExpiry(after, now) else after == before
  }

  lemma SweepStep(before: Tables, after: Tables, now: int, r: RunId, cleanupId: string)
    requires AllGood(before, now) && r in before.runs && Expired(before.runs[r], now)
    requires OnlySlice(before, after, r.task, TransactRun(Slice(before, r.task), now, r, LeaseExpired, cleanupId))
    ensures r in after.runs && Swept(before.runs[r], after.runs[r], now)
    ensures RunOutcome(Slice(before, r.task), now, r, LeaseExpired, cleanupId).Decided?
            <==> before.runs[r].credentialOperation.None?
  {
    SliceRun(before, r);
    SliceRun(after, r);
    SliceGood(before, r.task, now);
    ExpirySettles(Slice(before, r.task), now, r, cleanupId);
  }

  /** The part of the orchestrator that loops: its store and its reroute cursor. */
  class Sweeper {
    const store: MemoryStore
    var rerouteOffset: Option<nat>

    constructor (store: MemoryStore)
      ensures this.store == store && rerouteOffset.None?
    {
      this.store := store;
      rerouteOffset := None;
    }

    /** Close, update work or refresh an issue: one attempt of the optimistic write, which
        nothing else runs between. */
    method TransactTask(now: int, id: TaskId, event: Event, ghost clock: int) returns (outcome: Outcome)
      requires store.Valid(clock) && clock <= now && IsTaskEvent(event)
      modifies store
      ensures store.Valid(now)
      ensures outcome == TaskOutcome(Slice(old(store.State()), id), now, event)
      ensures OnlySlice(old(store.State()), store.State(), id, Step(Slice(old(store.State()), id), Tick(now, event)))
    {
      TaskDecided(store.State(), now, id, event, clock);
      outcome := TaskDecision(store.State(), now, id, event);
      if outcome.Decided? {
        var applied := store.Apply(outcome.decision, RevisionAt(store.tasks, id));
      }
    }

    /** One transaction on a run, as the loops see it: no other run changes. */
    method Transact(now: int, r: RunId, cmd: RunCommand, cleanupId: string) returns (outcome: Outcome)
      requires store.Valid(now)
      modifies store
      ensures store.Valid(now) && Spared(old(store.runs), store.runs, r) && Kept(old(store.runs), store.runs)
      ensures outcome.Decided? <==> RunOutcome(Slice(old(store.State()), r.task), now, r, cmd, cleanupId).Decided?
      ensures OnlySlice(old(store.State()), store.State(), r.task,
                        TransactRun(Slice(old(store.State()), r.task), now, r, cmd, cleanupId))
      ensures !outcome.Decided? ==> store.runs == old(store.runs)
      ensures outcome.Decided? && cmd.QueuedRerouted? ==> Moved(store.runs, r)
      ensures r in old(store.runs) && Expired(old(store.runs)[r], now) && cmd.LeaseExpired? ==>
                && r in store.runs && Swept(old(store.runs)[r], store.runs[r], now)
                && (outcome.Decided? <==> old(store.runs)[r].credentialOperation.None?)
    {
      ghost var before := store.State();
      outcome := store.TransactRun(now, r, cmd, cleanupId, now);
      StepSparesAll(before, store.State(), now, r, cmd, cleanupId);
      StepKeepsAll(before, store.State(), now, r, cmd, cleanupId);
      if outcome.Decided? && cmd.QueuedRerouted? { RerouteMoves(before, store.State(), now, r, cmd, cleanupId); }
      if r in before.runs && Expired(before.runs[r], now) && cmd.LeaseExpired? {
        SweepStep(before, store.State(), now, r, cleanupId);
      }
    }

    /** The expiry of one run, decided against the store; no other run changes. */
    method Expire(now: int, r: RunId, cleanupId: string) returns (settled: bool)
      requires store.Valid(now)
      modifies store
      ensures store.Valid(now) && Spared(old(store.runs), store.runs, r)
      ensures r in old(store.runs) && Expired(old(store.runs)[r], now) ==>
                && r in store.runs && Swept(old(store.runs)[r], store.runs[r], now)
                && (settled <==> old(store.runs)[r].credentialOperation.None?)
    {
      var outcome := Transact(now, r, LeaseExpired, cleanupId);
      settled := outcome.Decided?;
    }

    /** Visits the expired live runs in some order; each ends lost unless it holds an
        operation, and every other run stays as it was. */
    method SweepExpired(now: int, cleanupId: RunId -> string, ghost clock: int) returns (lost: seq<RunId>)
      requires store.Valid(clock) && clock <= now
      modifies store
      ensures store.Valid(now)
      ensures SweptUpTo(old(store.runs), store.runs, {}, now)
      ensures forall r :: r in lost <==> Loses(old(store.runs), r, now)
    {
      GoodLater(store.State(), clock, now);
      var pending := set r | r in store.runs && Expired(store.runs[r], now);
      lost := [];
      while pending != {}
        invariant store.Valid(now)
        invariant forall r | r in pending :: r in old(store.runs) && Expired(old(store.runs)[r], now)
        invariant SweptUpTo(old(store.runs), store.runs, pending, now)
        invariant forall r :: r in lost <==> r !in pending && Loses(old(store.runs), r, now)
        decreases |pending|
      {
        var r :| r in pending;
        ghost var current := store.runs;
        var settled := Expire(now, r, cleanupId(r));
        SweptNext(old(store.runs), current, store.runs, pending, now, r);
        pending := pending - {r};
        if settled { lost := lost + [r]; }
      }
    }

    /** Try to move one run to another provider, deciding against the store. */
    method Reroute(now: int, r: RunId, cooldown: RunId -> Option<Cooldown>, authority: RunId -> Authority,
                   cleanupId: string, ghost states: seq<Tables>, ghost first: Tables, ghost attempted: seq<RunId>,
                   ghost rerouted: seq<RunId>) returns (succeeds: bool)
      requires store.Valid(now)
      requires Progress(states, first, store.State(), attempted, rerouted,
                        RerouteStep(now, cooldown, authority, cleanupId),
                        RerouteSucceeds(now, cooldown, authority, cleanupId))
      modifies store
      ensures store.Valid(now)
      ensures Progress(states + [store.State()], first, store.State(), attempted + [r],
                       rerouted + (if succeeds then [r] else []),
                       RerouteStep(now, cooldown, authority, cleanupId),
                       RerouteSucceeds(now, cooldown, authority, cleanupId))
    {
      ghost var before := store.State();
      var outcome := Transact(now, r, QueuedRerouted(cooldown(r), authority(r)), cleanupId);
      succeeds := outcome.Decided?;
      ProgressNext(states, first, before, store.State(), attempted, rerouted, r,
                   RerouteStep(now, cooldown, authority, cleanupId),
                   RerouteSucceeds(now, cooldown, authority, cleanupId));
    }

    /** Try to move each run of the batch. `states` are the stores in between. */
    method RerouteBatch(now: int, batch: seq<RunId>, cooldown: RunId -> Option<Cooldown>,
                        authority: RunId -> Authority, cleanupId: string)
      returns (rerouted: seq<RunId>, ghost states: seq<Tables>)
      requires store.Valid(now)
      modifies store
      ensures store.Valid(now)
      ensures Progress(states, old(store.State()), store.State(), batch, rerouted,
                       RerouteStep(now, cooldown, authority, cleanupId),
                       RerouteSucceeds(now, cooldown, authority, cleanupId))
    {
      rerouted, states := [], [store.State()];
      ghost var done: seq<RunId> := [];
      ProgressStarts(store.State(), RerouteStep(now, cooldown, authority, cleanupId),
                     RerouteSucceeds(now, cooldown, authority, cleanupId));
      for i := 0 to |batch|
        invariant store.Valid(now) && done == batch[..i]
        invariant Progress(states, old(store.State()), store.State(), done, rerouted,
                           RerouteStep(now, cooldown, authority, cleanupId),
                           RerouteSucceeds(now, cooldown, authority, cleanupId))
      {
        var moved := Reroute(now, batch[i], cooldown, authority, cleanupId, states, old(store.State()), done, rerouted);
        states, done := states + [store.State()], done + [batch[i]];
        rerouted := rerouted + (if moved then [batch[i]] else []);
      }
      assert batch[..|batch|] == batch;
    }

    /** Try to move the batch of queued candidates at the cursor, which then rests after it;
        the cursor grants nothing. A run that is moved is canceled for a successor
        elsewhere; every other run stays as it was. */
    method RerouteQueued(now: int, candidates: seq<RunId>, limit: int, initialOffset: nat,
                         cooldown: RunId -> Option<Cooldown>, authority: RunId -> Authority, cleanupId: string,
                         ghost clock: int)
      returns (attempted: seq<RunId>, rerouted: seq<RunId>, ghost states: seq<Tables>)
      requires store.Valid(clock) && clock <= now
      modifies store, this`rerouteOffset
      ensures store.Valid(now)
      ensures var offset := if old(rerouteOffset).Some? then old(rerouteOffset).value else initialOffset;
              if limit <= 0 || candidates == [] then attempted == [] && rerouteOffset == old(rerouteOffset)
              else var size := BatchSize(limit, |candidates|);
                   && attempted == Batch(candidates, offset, size)
                   && rerouteOffset == Some(OffsetAfter(offset, size, |candidates|, 1))
      ensures Progress(states, old(store.State()), store.State(), attempted, rerouted,
                       RerouteStep(now, cooldown, authority, cleanupId),
                       RerouteSucceeds(now, cooldown, authority, cleanupId))
    {
      ghost var first := store.State();
      GoodLater(first, clock, now);
      attempted := [];
      if 0 < limit && candidates != [] {
        var offset := if rerouteOffset.Some? then rerouteOffset.value else initialOffset;
        var size := BatchSize(limit, |candidates|);
        attempted := Batch(candidates, offset, size);
        rerouteOffset := Some(BatchStart(offset, |candidates|) + size);
      }
      assert store.State() == first && store.Valid(now);
      rerouted, states := RerouteBatch(now, attempted, cooldown, authority, cleanupId);
    }
  }
}
