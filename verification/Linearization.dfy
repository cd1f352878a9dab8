/** Optimistic task writes: the task and its active run are read one after the
    other, and the decision is applied only at the version that was read. */
module Linearization {
  import opened Model
  import opened Decide
  import opened Ledgers
  import opened Invariants
  import opened RequestPlans
  import opened Machine
  import opened History

  /** The decision of one attempt, from two separate reads. */
  function ReadOutcome(taskRead: Ledger, runRead: Ledger, now: int, event: Event): Outcome {
    DecideTask(taskRead.task, ActiveRun(runRead), now, event)
  }

  datatype Attempted = Applied(ledger: Ledger) | NotDecided | Conflict

  /** Apply writes only when the version is still the one that was read. */
  function AttemptWrite(taskRead: Ledger, runRead: Ledger, current: Ledger, now: int, event: Event): Attempted {
    var outcome := ReadOutcome(taskRead, runRead, now, event);
    if !outcome.Decided? then NotDecided
    else if current.revision != taskRead.revision then Conflict
    else Applied(Commit(current, outcome.decision))
  }

  predicate IsTaskEvent(event: Event) {
    event.Closed? || event.WorkUpdated? || event.IssueRefreshed?
  }

  /** The two readings of the lock agree whenever the version did not move. */
  lemma SameLock(l: Ledger, k: Ledger, now: int, later: int)
    requires Inv(l, now) && Inv(k, later) && k.task == l.task
    ensures ActiveRun(k).Some? <==> ActiveRun(l).Some?
    ensures ActiveRun(l).Some? ==> IsLive(ActiveRun(l).value.state) && IsLive(ActiveRun(k).value.state)
  {
    ActiveIsLive(l, now);
    ActiveIsLive(k, later);
  }

  /** Only whether a run is live matters to a decision that is accepted. */
  lemma DecisionIgnoresRun(task: Option<Task>, a: Option<Run>, b: Option<Run>, now: int, event: Event)
    requires a.Some? <==> b.Some?
    requires a.Some? ==> IsLive(a.value.state) && IsLive(b.value.state)
    ensures DecideTask(task, a, now, event).Decided? ==>
              DecideTask(task, b, now, event) == DecideTask(task, a, now, event)
  {
  }

  /** An accepted optimistic write is the atomic read, decision and write of the
      instant it commits, whatever ran between its two reads and its commit. */
  lemma AcceptedWriteIsAtomic(l: Ledger, clock: int, first: seq<Tick>, second: seq<Tick>, now: int, event: Event)
    requires Inv(l, clock) && Timely(l.id, clock, first) && IsTaskEvent(event)
    requires Timely(l.id, ClockAfter(clock, first), second)
    ensures var read := Exec(l, first);
            var current := Exec(read, second);
            var attempt := AttemptWrite(l, read, current, now, event);
            attempt.Applied? ==> attempt.ledger == Step(current, Tick(now, event))
  {
    var read := Exec(l, first);
    var current := Exec(read, second);
    ExecPreserves(l, first, clock);
    ExecPreserves(read, second, ClockAfter(clock, first));
    TaskForward(l, first, clock);
    TaskForward(read, second, ClockAfter(clock, first));
    if current.revision == l.revision {
      SameVersion(l, read, current, ClockAfter(clock, first), ClockAfter(ClockAfter(clock, first), second), now, event);
    }
  }

  lemma SameVersion(l: Ledger, read: Ledger, current: Ledger, at: int, later: int, now: int, event: Event)
    requires Inv(read, at) && Inv(current, later) && read.task == l.task && current.task == l.task && IsTaskEvent(event)
    ensures var attempt := AttemptWrite(l, read, current, now, event);
            attempt.Applied? ==> attempt.ledger == Step(current, Tick(now, event))
  {
    SameLock(read, current, at, later);
    DecisionIgnoresRun(l.task, ActiveRun(read), ActiveRun(current), now, event);
  }

  /** The answer is the atomic one on that ledger. */
  ghost predicate Answers(l: Ledger, now: int, event: Event, outcome: Outcome) {
    TaskOutcome(l, now, event) == outcome
  }

  lemma MixedReadIsBusy(l: Ledger, k: Ledger, now: int, later: int, at: int, event: Event)
    requires Inv(l, now) && Inv(k, later) && TaskMoves(l, k) && IsTaskEvent(event)
    requires !ReadOutcome(l, k, at, event).Decided?
    ensures Answers(l, at, event, ReadOutcome(l, k, at, event)) || Answers(k, at, event, ReadOutcome(l, k, at, event))
  {
    ActiveIsLive(l, now);
    ActiveIsLive(k, later);
  }

  /** A refused one is the atomic answer at one of its two reads. */
  lemma RefusedWriteIsAtomic(l: Ledger, clock: int, trace: seq<Tick>, now: int, event: Event)
    requires Inv(l, clock) && Timely(l.id, clock, trace) && IsTaskEvent(event)
    requires !ReadOutcome(l, Exec(l, trace), now, event).Decided?
    ensures Answers(l, now, event, ReadOutcome(l, Exec(l, trace), now, event))
            || Answers(Exec(l, trace), now, event, ReadOutcome(l, Exec(l, trace), now, event))
  {
    ExecPreserves(l, trace, clock);
    TaskForward(l, trace, clock);
    MixedReadIsBusy(l, Exec(l, trace), clock, ClockAfter(clock, trace), now, event);
  }
}
