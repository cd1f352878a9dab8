/** What closing a task, rewriting its work and refreshing its issue leave, and what a
    closed task answers from then on. */
module TaskWrites {
  import opened Model
  import opened Decide
  import opened Orchestrator
  import opened Ledgers
  import opened Invariants
  import opened RequestPlans
  import opened Machine
  import opened History
  import opened Admission

  /** A native task that no run holds. */
  predicate IdleNative(l: Ledger) {
    l.id.Work? && l.task.Some? && l.task.value.activeRunId.None?
  }

  /** The step wrote this task, as one more version, and nothing else. */
  ghost predicate WritesTask(l: Ledger, k: Ledger, task: Task) {
    k == l.(task := Some(task), revision := l.revision + 1)
  }

  /** A task write is a commit that writes the task it decided, or nothing. */
  lemma TaskStep(l: Ledger, tick: Tick)
    requires tick.event.Closed? || tick.event.WorkUpdated? || tick.event.IssueRefreshed?
    ensures var o := TaskOutcome(l, tick.now, tick.event);
            if o.Decided? then WritesTask(l, Step(l, tick), o.decision.task) else Step(l, tick) == l
  {
  }

  /** Closing an idle open native task marks it closed at that instant and changes nothing
      else; any other close changes nothing at all. */
  lemma CloseWrites(l: Ledger, clock: int, now: int)
    requires Inv(l, clock)
    ensures var k := Step(l, Tick(now, Closed));
            if IdleNative(l) && l.task.value.closedAt.None?
            then WritesTask(l, k, l.task.value.(closedAt := Some(now), updatedAt := now))
            else k == l
  {
    ActiveIsLive(l, clock);
    TaskStep(l, Tick(now, Closed));
  }

  /** Rewriting the work of an idle native task replaces it by what was sent, closed or not,
      and changes nothing else. */
  lemma WorkWrites(l: Ledger, clock: int, now: int, work: string)
    requires Inv(l, clock)
    ensures var k := Step(l, Tick(now, WorkUpdated(work)));
            if IdleNative(l) then WritesTask(l, k, l.task.value.(work := work, updatedAt := now)) else k == l
  {
    ActiveIsLive(l, clock);
    TaskStep(l, Tick(now, WorkUpdated(work)));
  }

  /** A refresh replaces an issue exactly by a newer one of the same source, or where there
      was none; a tie keeps what is stored. */
  lemma RefreshWrites(l: Ledger, now: int, issue: Issue)
    ensures var k := Step(l, Tick(now, IssueRefreshed(issue)));
            if l.task.None? || !SameSource(l.task, Some(issue)) then k == l
            else if l.task.value.issue.Some? && issue.updatedAt <= l.task.value.issue.value.updatedAt
            then WritesTask(l, k, l.task.value)
            else WritesTask(l, k, l.task.value.(issue := Some(issue), updatedAt := now))
  {
    TaskStep(l, Tick(now, IssueRefreshed(issue)));
  }

  // ---------------------------------------------------------------------- closed tasks

  /** No request is decided on a closed native task, under any guard or intent. */
  lemma ClosedRefuses(l: Ledger, clock: int, now: int, input: RequestInput)
    requires Inv(l, clock) && l.id.Work? && l.task.Some? && l.task.value.closedAt.Some? && input.taskId == l.id
    ensures !RequestOutcome(l, now, input).Decided?
  {
    ActiveIsLive(l, clock);
    if RequestOutcome(l, now, input).Decided? {
      var requestId := ResolvedRequestId(l, input).value;
      RequestCases(now, input, Snapshot(l, input, requestId), RequestOutcome(l, now, input).decision);
    }
  }

  /** Once closed, over any later history: the task stays closed, no run is added, and every
      request is refused. */
  lemma ClosedRefusesForever(l: Ledger, clock: int, now: int, trace: seq<Tick>, later: int, input: RequestInput)
    requires Inv(l, clock) && clock <= now && IdleNative(l) && Timely(l.id, now, trace) && input.taskId == l.id
    ensures var m := Exec(Step(l, Tick(now, Closed)), trace);
            && m.task.Some? && m.task.value.closedAt.Some? && RunCount(m) == RunCount(l)
            && !RequestOutcome(m, later, input).Decided?
  {
    var k := Step(l, Tick(now, Closed));
    CloseWrites(l, clock, now);
    StepPreserves(l, Tick(now, Closed), clock);
    ClosedForever(k, trace, now);
    ExecPreserves(k, trace, now);
    ClosedRefuses(Exec(k, trace), ClockAfter(now, trace), later, input);
  }
}
