/** What every step keeps, and therefore what holds over every history. */
module History {
  import opened Model
  import opened Decide
  import opened Ledgers
  import opened Invariants
  import opened Primitives
  import opened Lawful
  import opened CommandPlans
  import opened Machine

  // -------------------------------------------------------------- one step, per run

  ghost predicate RunMoves(before: Run, after: Run) {
    && RunKept(before, after)
    && ClaimMoves(before, after)
    && OperationMoves(before.credentialOperation, after.credentialOperation)
    && PendingMoves(before, after)
  }

  ghost predicate RunsMove(l: Ledger, k: Ledger) {
    forall r | r in l.runs :: r in k.runs && RunMoves(l.runs[r], k.runs[r])
  }

  /** A closed task is left without successors; an equal version is an equal task. */
  ghost predicate TaskMoves(l: Ledger, k: Ledger) {
    && k.id == l.id
    && RunCount(l) <= RunCount(k)
    && l.revision <= k.revision
    && (k.revision == l.revision ==> k.task == l.task)
    && (l.task.Some? ==> k.task.Some?)
    && (l.task.Some? && l.task.value.closedAt.Some? ==>
          k.task.value.closedAt.Some? && RunCount(k) == RunCount(l))
  }

  lemma RunStays(run: Run, now: int)
    requires GoodRun(run, now)
    ensures RunMoves(run, run)
  {
  }

  lemma RunsStay(l: Ledger, k: Ledger, now: int)
    requires RunsInv(l, now) && k.runs == l.runs
    ensures RunsMove(l, k)
  {
    forall r | r in l.runs ensures RunMoves(l.runs[r], k.runs[r]) { RunStays(l.runs[r], now); }
  }

  lemma TouchMoves(l: Ledger, r: RunId, d: Decision, now: int)
    requires Reads(l, r, now) && Touches(l.task.value, l.runs[r], d, now)
    ensures RunsMove(l, Commit(l, d)) && TaskMoves(l, Commit(l, d))
  {
    ReadsHeld(l, r, now);
    forall o | o in l.runs ensures o in Commit(l, d).runs && RunMoves(l.runs[o], Commit(l, d).runs[o]) {
      if o != r { RunStays(l.runs[o], now); }
    }
  }

  lemma MintMoves(l: Ledger, d: Decision, now: int)
    requires Inv(l, now) && Mints(l, d, now)
    ensures RunsMove(l, Commit(l, d)) && TaskMoves(l, Commit(l, d))
  {
    MintedLedger(l, Commit(l, d), d, now);
    forall o | o in l.runs ensures o in Commit(l, d).runs && RunMoves(l.runs[o], Commit(l, d).runs[o]) {
      RunStays(l.runs[o], now);
    }
  }

  /** The mint half writes no run that existed. */
  lemma SequenceMoves(l: Ledger, r: RunId, touch: Decision, mint: Decision, k: Ledger, now: int)
    requires Inv(l, now) && TouchThenMint(l, r, touch, mint, now)
    requires k == Commit(Commit(l, touch), mint).(revision := l.revision + 1)
    ensures RunsMove(l, k) && TaskMoves(l, k)
  {
    var m := Commit(l, touch);
    TouchMoves(l, r, touch, now);
    TouchPreserves(l, r, touch, now);
    MintAdds(m, mint, now);
    MoveThenAdd(l, m, k);
    SequenceTask(l, m, mint, k, now);
  }

  lemma MintAdds(m: Ledger, mint: Decision, now: int)
    requires MutexInv(m) && Mints(m, mint, now)
    ensures forall o | o in m.runs :: o in Commit(m, mint).runs && Commit(m, mint).runs[o] == m.runs[o]
  {
    MintedLedger(m, Commit(m, mint), mint, now);
  }

  lemma SequenceTask(l: Ledger, m: Ledger, mint: Decision, k: Ledger, now: int)
    requires TaskMoves(l, m) && Mints(m, mint, now) && k == Commit(m, mint).(revision := l.revision + 1)
    ensures TaskMoves(l, k)
  {
  }

  lemma MoveThenAdd(l: Ledger, m: Ledger, k: Ledger)
    requires RunsMove(l, m) && forall o | o in m.runs :: o in k.runs && k.runs[o] == m.runs[o]
    ensures RunsMove(l, k)
  {
    forall o | o in l.runs ensures o in k.runs && RunMoves(l.runs[o], k.runs[o]) {
      assert RunMoves(l.runs[o], m.runs[o]);
    }
  }

  lemma PlanMoves(l: Ledger, d: Decision, plan: Plan, now: int)
    requires Inv(l, now) && Follows(l, d, plan, now)
    ensures RunsMove(l, Commit(l, d)) && TaskMoves(l, Commit(l, d))
  {
    match plan {
      case TouchPlan(r) => TouchMoves(l, r, d, now);
      case TaskPlan => RunsStay(l, Commit(l, d), now);
      case MintPlan => MintMoves(l, d, now);
      case FollowPlan(r, touch, mint) =>
        HalvesDiffer(l, r, touch, mint, now);
        FollowedIsSequence(l, touch, mint);
        SequenceMoves(l, r, touch, mint, Commit(l, d), now);
      case JoinPlan(r, touch, mint) =>
        HalvesDiffer(l, r, touch, mint, now);
        FollowedIsSequence(l, touch, mint);
        SequenceMoves(l, r, touch, mint, Commit(l, d), now);
    }
  }

  lemma KindMoves(l: Ledger, k: Ledger, kind: Kind, now: int)
    requires Inv(l, now) && StepIs(l, k, kind, now)
    ensures RunsMove(l, k) && TaskMoves(l, k)
  {
    match kind {
      case Quiet => RunsStay(l, k, now);
      case Lawfully(base, d, plan) => PlanMoves(base, d, plan, now);
      case RunWrite(r, after) => TouchMoves(l, r, Decision(l.task.value, Some(after), None, []), now);
    }
  }

  /** What every step of the machine keeps. */
  lemma StepMoves(l: Ledger, tick: Tick, clock: int)
    requires Inv(l, clock) && clock <= tick.now && Admissible(l.id, tick.event)
    ensures RunsMove(l, Step(l, tick)) && TaskMoves(l, Step(l, tick))
  {
    InvLater(l, clock, tick.now);
    var kind := StepKind(l, tick);
    KindMoves(l, Step(l, tick), kind, tick.now);
  }

  // ------------------------------------------------------------------ over histories

  /** A run is never removed, and once settled its state and result never change. */
  lemma {:induction false} SettledForever(l: Ledger, trace: seq<Tick>, clock: int, r: RunId)
    requires Inv(l, clock) && Timely(l.id, clock, trace) && r in l.runs
    ensures var k := Exec(l, trace);
            && r in k.runs && SameIdentity(l.runs[r], k.runs[r])
            && l.runs[r].events <= k.runs[r].events
            && (!IsLive(l.runs[r].state) ==> k.runs[r].state == l.runs[r].state && k.runs[r].result == l.runs[r].result)
    decreases |trace|
  {
    if trace != [] {
      StepMoves(l, trace[0], clock);
      StepPreserves(l, trace[0], clock);
      assert RunMoves(l.runs[r], Step(l, trace[0]).runs[r]);
      SettledForever(Step(l, trace[0]), trace[1..], trace[0].now, r);
    }
  }

  /** The lock's own history: counts and versions grow, a closed task is final, and an
      equal version is an equal task. */
  lemma {:induction false} TaskForward(l: Ledger, trace: seq<Tick>, clock: int)
    requires Inv(l, clock) && Timely(l.id, clock, trace)
    ensures TaskMoves(l, Exec(l, trace))
    decreases |trace|
  {
    if trace != [] {
      var k, rest := Step(l, trace[0]), trace[1..];
      StepMoves(l, trace[0], clock);
      StepPreserves(l, trace[0], clock);
      TaskForward(k, rest, trace[0].now);
      assert Exec(l, trace) == Exec(k, rest);
    }
  }

  /** A closed task stays closed and never gets another run. */
  lemma ClosedForever(l: Ledger, trace: seq<Tick>, clock: int)
    requires Inv(l, clock) && Timely(l.id, clock, trace)
    requires l.task.Some? && l.task.value.closedAt.Some?
    ensures var k := Exec(l, trace);
            k.task.Some? && k.task.value.closedAt.Some? && RunCount(k) == RunCount(l)
            && forall r | r in k.runs :: !IsLive(k.runs[r].state)
  {
    var k := Exec(l, trace);
    TaskForward(l, trace, clock);
    ExecPreserves(l, trace, clock);
    forall r | r in k.runs ensures !IsLive(k.runs[r].state) { assert RunLocked(k, r); }
  }

  // -------------------------------------------------------------------- within one claim

  /** The run is claimed before and after every step of the history. */
  ghost predicate StaysClaimed(l: Ledger, trace: seq<Tick>, r: RunId)
    decreases |trace|
  {
    && r in l.runs && IsClaimed(l.runs[r])
    && (trace == [] || StaysClaimed(Step(l, trace[0]), trace[1..], r))
  }

  /** The claim is the same; its Job is named once, placed once, and observed later and
      later; its deadlines only moved forward. */
  ghost predicate ClaimForward(before: Run, after: Run) {
    && IsClaimed(before) && IsClaimed(after)
    && var a, b := before.queue.value, after.queue.value;
    && SameClaim(a, b)
    && RecoveryDeadline(before).value <= RecoveryDeadline(after).value
    && (a.firstHeartbeatAt.Some? ==> b.firstHeartbeatAt == a.firstHeartbeatAt)
    && (if a.startupPlacement.None? then b.startupPlacement.None?
        else b.startupPlacement.Some?
             && var x, y := a.startupPlacement.value, b.startupPlacement.value;
             && (y == x || x.observedAt < y.observedAt)
             && (x.placed ==> y == x)
             && (x.jobUid.Some? ==> y.jobUid == x.jobUid))
  }

  lemma ClaimStarts(run: Run, now: int)
    requires GoodRun(run, now) && IsClaimed(run)
    ensures ClaimForward(run, run)
  {
  }

  lemma ClaimContinues(a: Run, b: Run, c: Run)
    requires RunMoves(a, b) && IsClaimed(a) && IsClaimed(b) && ClaimForward(b, c)
    ensures ClaimForward(a, c)
  {
  }

  /** However many observations a claim sees, it keeps to these rules. */
  lemma {:induction false} ClaimKeepsItsRules(l: Ledger, trace: seq<Tick>, clock: int, r: RunId)
    requires Inv(l, clock) && Timely(l.id, clock, trace) && StaysClaimed(l, trace, r)
    ensures r in Exec(l, trace).runs && ClaimForward(l.runs[r], Exec(l, trace).runs[r])
    decreases |trace|
  {
    if trace == [] {
      assert GoodRun(l.runs[r], clock);
      ClaimStarts(l.runs[r], clock);
    } else {
      var k, rest := Step(l, trace[0]), trace[1..];
      StepMoves(l, trace[0], clock);
      StepPreserves(l, trace[0], clock);
      ClaimKeepsItsRules(k, rest, trace[0].now, r);
      assert RunMoves(l.runs[r], k.runs[r]);
      ClaimContinues(l.runs[r], k.runs[r], Exec(k, rest).runs[r]);
    }
  }
}
