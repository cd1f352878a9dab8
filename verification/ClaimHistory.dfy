/** What a claim has seen: over any history within one claim the evidence of its Job is
    fresh and moves forward, and a recorded credential restore stands. */
module ClaimHistory {
  import opened Model
  import opened Decide
  import opened Orchestrator
  import opened Ledgers
  import opened Invariants
  import opened Primitives
  import opened TouchSteps
  import opened CommandPlans
  import opened RequestPlans
  import opened Machine
  import opened History
  import opened Frames
  import opened CredentialFence
  import opened Lifecycle

  // ------------------------------------------------------------------------- one step

  /** A startup observation is kept, or replaced by a later one, committed within a minute
      of it and at most five seconds before. */
  ghost predicate PlacementSeen(before: RunQueue, after: RunQueue, now: int) {
    || after.startupPlacement == before.startupPlacement
    || (after.startupPlacement.Some? && before.startupPlacement.Some?
        && before.startupPlacement.value.observedAt < after.startupPlacement.value.observedAt
        && now - 60_000 <= after.startupPlacement.value.observedAt <= now + 5_000)
  }

  /** A placement report likewise, within thirty seconds and never ahead. */
  ghost predicate ReportSeen(before: RunQueue, after: RunQueue, now: int) {
    || after.placementObservedAt == before.placementObservedAt
    || (after.placementObservedAt.Some?
        && (before.placementObservedAt.Some? ==> before.placementObservedAt.value <= after.placementObservedAt.value)
        && now - 30_000 <= after.placementObservedAt.value <= now)
  }

  /** A recorded restore is kept, or replaced by one of the present claimant. */
  ghost predicate RestoreSeen(before: Run, after: Run) {
    || after.credentialRestoredClaimFingerprint == before.credentialRestoredClaimFingerprint
    || (after.credentialRestoredClaimFingerprint.Some?
        && IsClaimant(before, after.credentialRestoredClaimFingerprint.value))
  }

  ghost predicate Sees(before: Run, after: Run, now: int) {
    && IsClaimed(before) && IsClaimed(after)
    && PlacementSeen(before.queue.value, after.queue.value, now)
    && ReportSeen(before.queue.value, after.queue.value, now)
    && RestoreSeen(before, after)
  }

  /** If the run is still claimed. */
  ghost predicate SeesIn(l: Ledger, k: Ledger, r: RunId, now: int)
    requires r in l.runs
  {
    r in k.runs && (IsClaimed(k.runs[r]) && IsClaimed(l.runs[r]) ==> Sees(l.runs[r], k.runs[r], now))
  }

  lemma DecisionSees(now: int, t: Task, run: Run, cmd: RunCommand, d: Decision)
    requires Held(t, run, now) && IsClaimed(run) && DecideCommand(now, t, run, cmd) == Decided(d)
    requires d.run.Some? && IsClaimed(d.run.value)
    requires Framed(t, run, cmd, d, now)
    ensures Sees(run, d.run.value, now)
  {
    match cmd {
      case StartupObserved(claimant, jobUid, at, placed) =>
        StartupEvidenceIsFresh(now, t, run, claimant, jobUid, at, placed);
      case PlacementObserved(claimant, at) => PlacementEvidenceIsFresh(now, t, run, claimant, at);
      case _ =>
    }
  }

  lemma OutcomeSees(now: int, t: Task, run: Run, cmd: RunCommand, cleanupId: string, d: Decision)
    requires Held(t, run, now) && IsClaimed(run) && DecideOnRun(now, t, run, cmd, cleanupId) == Decided(d)
    requires d.run.Some? && IsClaimed(d.run.value)
    ensures Sees(run, d.run.value, now)
  {
    var e := DecideCommand(now, t, run, cmd).decision;
    CommandFrame(now, t, run, cmd, e);
    CleanupFrame(run, e, cleanupId);
    DecisionSees(now, t, run, cmd, e);
  }

  lemma CommandSees(l: Ledger, now: int, r: RunId, cmd: RunCommand, cleanupId: string)
    requires Inv(l, now) && r in l.runs && IsClaimed(l.runs[r])
    ensures var k := TransactRun(l, now, r, cmd, cleanupId);
            SeesIn(l, k, r, now)
  {
    var o := RunOutcome(l, now, r, cmd, cleanupId);
    if o.Decided? {
      var plan := RunOutcomePlan(l, now, r, cmd, cleanupId);
      ReadsHeld(l, r, now);
      PlanWrites(l, r, o.decision, plan, now);
      if o.decision.run.Some? && IsClaimed(o.decision.run.value) {
        OutcomeSees(now, l.task.value, l.runs[r], cmd, cleanupId, o.decision);
      }
    }
  }

  lemma QueueSees(l: Ledger, now: int, event: Event, r: RunId)
    requires MutexInv(l) && r in l.runs && IsClaimed(l.runs[r])
    requires event.Enqueued? || event.ClaimTaken? || event.ClaimReleased?
    ensures SeesIn(l, QueueStep(l, now, event), r, now)
  {
    if event.run in l.runs { assert RunLocked(l, event.run); }
  }

  lemma UpkeepSees(l: Ledger, now: int, event: Event, r: RunId)
    requires MutexInv(l) && r in l.runs && IsClaimed(l.runs[r])
    ensures SeesIn(l, Upkeep(l, now, event), r, now)
  {
    if event.Enqueued? || event.ClaimTaken? || event.ClaimReleased? {
      QueueSees(l, now, event, r);
    } else {
      TaskWritesNoRun(l, now, event);
      EntryWritesNoRun(l, now, event);
    }
  }

  lemma AnyCommandSees(l: Ledger, now: int, o: RunId, cmd: RunCommand, cleanupId: string, r: RunId)
    requires Inv(l, now) && r in l.runs && IsClaimed(l.runs[r])
    ensures var k := TransactRun(l, now, o, cmd, cleanupId);
            SeesIn(l, k, r, now)
  {
    if o == r { CommandSees(l, now, r, cmd, cleanupId); } else { CommandSpares(l, now, o, cmd, cleanupId, r); }
  }

  lemma RequestSees(l: Ledger, now: int, input: RequestInput, r: RunId)
    requires Inv(l, now) && GoodInput(input) && input.taskId == l.id && r in l.runs && IsClaimed(l.runs[r])
    ensures SeesIn(l, TransactRequest(l, now, input), r, now)
  {
    RequestSpares(l, now, input, r);
  }

  /** While a run stays claimed, each step sees only what it should. */
  lemma StepSees(l: Ledger, tick: Tick, clock: int, r: RunId)
    requires Inv(l, clock) && clock <= tick.now && Admissible(l.id, tick.event)
    requires r in l.runs && IsClaimed(l.runs[r])
    ensures SeesIn(l, Step(l, tick), r, tick.now)
  {
    InvLater(l, clock, tick.now);
    var event := tick.event;
    if event.Requested? {
      RequestSees(l, tick.now, event.input, r);
    } else if event.OnRun? {
      AnyCommandSees(l, tick.now, event.run, event.cmd, event.cleanupId, r);
    } else {
      UpkeepSees(l, tick.now, event, r);
    }
  }

  // ------------------------------------------------------------------------- histories

  /** An observation, and when it was committed. */
  datatype Seen = Seen(now: int, at: int)

  function PlacementAt(l: Ledger, r: RunId): Option<int> {
    if r in l.runs && l.runs[r].queue.Some? && l.runs[r].queue.value.startupPlacement.Some?
    then Some(l.runs[r].queue.value.startupPlacement.value.observedAt) else None
  }

  function ReportAt(l: Ledger, r: RunId): Option<int> {
    if r in l.runs && l.runs[r].queue.Some? then l.runs[r].queue.value.placementObservedAt else None
  }

  function NewlySeen(before: Option<int>, after: Option<int>, now: int): seq<Seen> {
    if after.Some? && after != before then [Seen(now, after.value)] else []
  }

  /** The startup observations a history records for the run. */
  function Placements(l: Ledger, trace: seq<Tick>, r: RunId): seq<Seen>
    decreases |trace|
  {
    if trace == [] then []
    else var k := Step(l, trace[0]);
         NewlySeen(PlacementAt(l, r), PlacementAt(k, r), trace[0].now) + Placements(k, trace[1..], r)
  }

  /** The placement reports a history records for the run. */
  function Reports(l: Ledger, trace: seq<Tick>, r: RunId): seq<Seen>
    decreases |trace|
  {
    if trace == [] then []
    else var k := Step(l, trace[0]);
         NewlySeen(ReportAt(l, r), ReportAt(k, r), trace[0].now) + Reports(k, trace[1..], r)
  }

  /** Later and later than `first`, each committed at most `age` after and `ahead` before it. */
  ghost predicate Forward(first: Option<int>, seen: seq<Seen>, age: int, ahead: int) {
    && (forall i | 0 <= i < |seen| ::
          (first.Some? ==> first.value < seen[i].at) && seen[i].now - age <= seen[i].at <= seen[i].now + ahead)
    && (forall i, j | 0 <= i < j < |seen| :: seen[i].at < seen[j].at)
  }

  /** Nothing newly seen, or something later and in time. */
  ghost predicate SeenNext(first: Option<int>, next: Option<int>, now: int, age: int, ahead: int) {
    next == first
    || (next.Some? && (first.Some? ==> first.value < next.value) && now - age <= next.value <= now + ahead)
  }

  lemma ForwardJoins(first: Option<int>, next: Option<int>, now: int, rest: seq<Seen>, age: int, ahead: int)
    requires SeenNext(first, next, now, age, ahead) && Forward(next, rest, age, ahead)
    ensures Forward(first, NewlySeen(first, next, now) + rest, age, ahead)
  {
  }

  lemma SeesNext(l: Ledger, k: Ledger, r: RunId, now: int)
    requires r in l.runs && r in k.runs && Sees(l.runs[r], k.runs[r], now)
    ensures SeenNext(PlacementAt(l, r), PlacementAt(k, r), now, 60_000, 5_000)
    ensures SeenNext(ReportAt(l, r), ReportAt(k, r), now, 30_000, 0)
  {
  }

  lemma NextSees(l: Ledger, tick: Tick, clock: int, r: RunId)
    requires Inv(l, clock) && clock <= tick.now && Admissible(l.id, tick.event)
    requires r in l.runs && IsClaimed(l.runs[r]) && r in Step(l, tick).runs && IsClaimed(Step(l, tick).runs[r])
    ensures SeenNext(PlacementAt(l, r), PlacementAt(Step(l, tick), r), tick.now, 60_000, 5_000)
    ensures SeenNext(ReportAt(l, r), ReportAt(Step(l, tick), r), tick.now, 30_000, 0)
  {
    StepSees(l, tick, clock, r);
    SeesNext(l, Step(l, tick), r, tick.now);
  }

  /** Over any history within a claim the recorded startup observations are strictly later
      than one another, and each was at most a minute old, at most five seconds ahead. */
  lemma {:induction false} PlacementsMoveForward(l: Ledger, trace: seq<Tick>, clock: int, r: RunId)
    requires Inv(l, clock) && Timely(l.id, clock, trace) && StaysClaimed(l, trace, r)
    ensures Forward(PlacementAt(l, r), Placements(l, trace, r), 60_000, 5_000)
    decreases |trace|
  {
    if trace != [] {
      var k, rest := Step(l, trace[0]), trace[1..];
      NextSees(l, trace[0], clock, r);
      StepPreserves(l, trace[0], clock);
      PlacementsMoveForward(k, rest, trace[0].now, r);
      ForwardJoins(PlacementAt(l, r), PlacementAt(k, r), trace[0].now, Placements(k, rest, r), 60_000, 5_000);
    }
  }

  /** So are its placement reports, each at most thirty seconds old and never ahead. */
  lemma {:induction false} ReportsMoveForward(l: Ledger, trace: seq<Tick>, clock: int, r: RunId)
    requires Inv(l, clock) && Timely(l.id, clock, trace) && StaysClaimed(l, trace, r)
    ensures Forward(ReportAt(l, r), Reports(l, trace, r), 30_000, 0)
    decreases |trace|
  {
    if trace != [] {
      var k, rest := Step(l, trace[0]), trace[1..];
      NextSees(l, trace[0], clock, r);
      StepPreserves(l, trace[0], clock);
      ReportsMoveForward(k, rest, trace[0].now, r);
      ForwardJoins(ReportAt(l, r), ReportAt(k, r), trace[0].now, Reports(k, rest, r), 30_000, 0);
    }
  }

  /** A restore recorded for a claim stands for as long as the run stays claimed. */
  lemma {:induction false} RestoreStands(l: Ledger, trace: seq<Tick>, clock: int, r: RunId, fingerprint: string)
    requires Inv(l, clock) && Timely(l.id, clock, trace) && StaysClaimed(l, trace, r)
    requires IsClaimant(l.runs[r], fingerprint) && l.runs[r].credentialRestoredClaimFingerprint == Some(fingerprint)
    ensures r in Exec(l, trace).runs
            && Exec(l, trace).runs[r].credentialRestoredClaimFingerprint == Some(fingerprint)
    decreases |trace|
  {
    if trace != [] {
      var k, rest := Step(l, trace[0]), trace[1..];
      StepSees(l, trace[0], clock, r);
      StepMoves(l, trace[0], clock);
      StepPreserves(l, trace[0], clock);
      assert RunMoves(l.runs[r], k.runs[r]);
      RestoreStands(k, rest, trace[0].now, r, fingerprint);
    }
  }
}
