/** The reference store: its maps, and the transactions that read and write them
    without yielding in between. */
module MemoryStores {
  import opened Model
  import opened Decide
  import opened Orchestrator
  import opened Routing
  import opened Ledgers
  import opened Invariants
  import opened Primitives
  import opened Lawful
  import opened CommandPlans
  import opened RequestPlans
  import opened Outbox
  import opened OutboxQueue
  import opened Machine
  import opened Tables
  import opened Effects
  import opened Frames
  import opened Audit
  import Claims
  import OutboxEntries

  function RevisionAt(tasks: map<TaskId, VersionedTask>, id: TaskId): Option<nat> {
    if id in tasks then Some(tasks[id].revision) else None
  }

  lemma {:induction false} PutEntriesNext(outbox: map<EntryId, OutboxEntry>, entries: seq<OutboxEntry>, i: nat)
    requires i < |entries|
    ensures PutEntries(outbox, entries[..i + 1]) == PutEntries(outbox, entries[..i])[entries[i].entryId := entries[i]]
  {
    assert entries[..i + 1] == entries[..i] + [entries[i]];
    PutEntriesJoin(outbox, entries[..i], [entries[i]]);
    assert PutEntries(PutEntries(outbox, entries[..i]), [entries[i]])
        == PutEntries(outbox, entries[..i])[entries[i].entryId := entries[i]];
  }

  // ------------------------------------------------------------ commits as queue events

  /** The entries an answered transaction writes. */
  function Written(outcome: Outcome): seq<OutboxEntry> {
    if outcome.Decided? then outcome.decision.outbox else []
  }

  lemma {:induction false} QueueRunNext(q: Queue, events: seq<QueueEvent>, event: QueueEvent)
    requires OutboxQueue.Valid(q)
    ensures QueueRun(q, events + [event]) == QueueNext(QueueRun(q, events), event)
    decreases |events|
  {
    if events == [] {
      assert [] + [event] == [event] && [event][1..] == [];
    } else {
      assert (events + [event])[0] == events[0] && (events + [event])[1..] == events[1..] + [event];
      QueueRunNext(QueueNext(q, events[0]), events[1..], event);
    }
  }

  lemma AddsNext(q: Queue, entries: seq<OutboxEntry>, i: nat)
    requires OutboxQueue.Valid(q) && i < |entries|
    ensures QueueRun(q, Adds(entries[..i + 1])) == QueueNext(QueueRun(q, Adds(entries[..i])), Added(entries[i]))
  {
    assert Adds(entries[..i + 1]) == Adds(entries[..i]) + [Added(entries[i])];
    QueueRunNext(q, Adds(entries[..i]), Added(entries[i]));
  }

  /** New entries of different ids, none of them in the queue unless it may repeat. */
  lemma {:induction false} AddsLawful(q: Queue, entries: seq<OutboxEntry>)
    requires OutboxQueue.Valid(q) && AllFresh(entries) && Distinct(entries)
    requires forall i | 0 <= i < |entries| && OnceOnly(entries[i].entryId) :: entries[i].entryId !in q.entries
    ensures LawfulAdds(q, Adds(entries))
    decreases |entries|
  {
    if entries != [] {
      var rest := entries[1..];
      assert forall i | 0 <= i < |rest| :: rest[i] == entries[i + 1];
      assert Adds(entries)[1..] == Adds(rest);
      AddsLawful(QueueNext(q, Added(entries[0])), rest);
    }
  }

  /** What a ledger emits as new is new to the whole outbox. */
  lemma SliceAddsLawful(t: Tables, q: Queue, id: TaskId, entries: seq<OutboxEntry>)
    requires OutboxQueue.Valid(q) && q.entries == t.outbox && AllFresh(entries) && FreshEntries(Slice(t, id), entries)
    requires forall i | 0 <= i < |entries| :: entries[i].entryId.run.task == id
    ensures LawfulAdds(q, Adds(entries))
  {
    forall i | 0 <= i < |entries| && OnceOnly(entries[i].entryId) ensures entries[i].entryId !in q.entries {
      assert Novel(EntriesOf(t.outbox, id), entries[i].entryId);
    }
    AddsLawful(q, entries);
  }

  lemma LeaseNext(entries: map<EntryId, OutboxEntry>, ids: seq<EntryId>, i: nat, drain: Drain)
    requires i < |ids| && ids[i] in entries
    ensures LeaseAll(entries, ids[..i + 1], drain)
         == LeaseAll(entries, ids[..i], drain)[ids[i] := LeaseEntry(entries[ids[i]], drain.claimId(ids[i]),
                                                                    drain.leaseExpiresAt, drain.now)]
  {
    assert ids[..i + 1] == ids[..i] + [ids[i]];
  }

  predicate Holds(outbox: map<EntryId, OutboxEntry>, id: EntryId, entry: OutboxEntry) {
    id in outbox && outbox[id] == entry
  }

  lemma SelectionListed(q: Queue, drain: Drain)
    requires OutboxQueue.Valid(q)
    ensures Listed(Selection(q, drain), q.entries)
  {
    forall id | id in Selection(q, drain) ensures id in q.entries { SelectionIsEligible(q, drain, id); }
  }

  /** Rewriting entries in place, none added, keeps every ledger good. */
  lemma SameEntriesGood(t: Tables, outbox: map<EntryId, OutboxEntry>, clock: int)
    requires AllGood(t, clock) && outbox.Keys == t.outbox.Keys
    ensures AllGood(t.(outbox := outbox), clock)
  {
    forall id ensures Inv(Slice(t.(outbox := outbox), id), clock) {
      assert Inv(Slice(t, id), clock);
      SameEntriesExtend(t, outbox, id);
      ExtendsPreserves(Slice(t, id), Slice(t.(outbox := outbox), id), clock);
    }
  }

  lemma SameEntriesExtend(t: Tables, outbox: map<EntryId, OutboxEntry>, id: TaskId)
    requires outbox.Keys == t.outbox.Keys
    ensures Extends(Slice(t, id), Slice(t.(outbox := outbox), id))
  {
    var a, b := EntriesOf(t.outbox, id), EntriesOf(outbox, id);
    assert forall e :: e in a <==> e in b;
  }

  // -------------------------------------------------------- what the transactions rely on

  function RunIn(t: Tables, r: RunId): Option<Run> {
    if r in t.runs then Some(t.runs[r]) else None
  }

  lemma GoodLater(t: Tables, clock: int, now: int)
    requires AllGood(t, clock) && clock <= now
    ensures AllGood(t, now)
  {
    forall id ensures Inv(Slice(t, id), now) { InvLater(Slice(t, id), clock, now); }
  }

  lemma SliceGood(t: Tables, id: TaskId, now: int)
    requires AllGood(t, now)
    ensures Inv(Slice(t, id), now)
  {
  }

  lemma CommitGood(t: Tables, id: TaskId, d: Decision, plan: Plan, now: int)
    requires AllGood(t, now) && Follows(Slice(t, id), d, plan, now)
    ensures OnlySlice(t, Applied(t, d), id, Commit(Slice(t, id), d)) && AllGood(Applied(t, d), now)
    ensures d.task.task == id
  {
    assert Inv(Slice(t, id), now);
    PlanBelongs(Slice(t, id), d, plan, now);
    AppliedSlices(t, d, id);
    LawfulPreserves(Slice(t, id), d, plan, now);
    OnlySliceGood(t, Applied(t, d), id, Commit(Slice(t, id), d), now, now);
  }

  lemma RunReads(t: Tables, r: RunId, now: int)
    requires AllGood(t, now)
    ensures r in Slice(t, r.task).runs <==> r in t.runs
    ensures r in t.runs ==> r.task in t.tasks && t.runs[r].runId == r && Slice(t, r.task).runs[r] == t.runs[r]
  {
    var l := Slice(t, r.task);
    assert Inv(l, now);
    assert r in t.runs ==> r in l.runs;
    if r in l.runs { assert RunLocked(l, r); }
  }

  lemma CommandGood(t: Tables, now: int, r: RunId, cmd: RunCommand, cleanupId: string, d: Decision)
    requires AllGood(t, now) && RunOutcome(Slice(t, r.task), now, r, cmd, cleanupId) == Decided(d)
    ensures OnlySlice(t, Applied(t, d), r.task, TransactRun(Slice(t, r.task), now, r, cmd, cleanupId))
    ensures AllGood(Applied(t, d), now) && d.task.task == r.task
  {
    assert Inv(Slice(t, r.task), now);
    var plan := RunOutcomePlan(Slice(t, r.task), now, r, cmd, cleanupId);
    CommitGood(t, r.task, d, plan, now);
  }

  /** A command's commit adds its entries lawfully. */
  lemma CommandAdds(t: Tables, q: Queue, now: int, r: RunId, cmd: RunCommand, cleanupId: string, d: Decision)
    requires AllGood(t, now) && OutboxQueue.Valid(q) && q.entries == t.outbox
    requires RunOutcome(Slice(t, r.task), now, r, cmd, cleanupId) == Decided(d)
    ensures LawfulAdds(q, Adds(d.outbox))
  {
    var l := Slice(t, r.task);
    SliceGood(t, r.task, now);
    var plan := RunOutcomePlan(l, now, r, cmd, cleanupId);
    PlanEmits(l, d, plan, now);
    PlanBelongs(l, d, plan, now);
    CommandPublishes(l, now, r, cmd, cleanupId, d);
    SliceAddsLawful(t, q, r.task, d.outbox);
  }

  /** The decision as the maps give it. */
  function RunDecision(t: Tables, now: int, r: RunId, cmd: RunCommand, cleanupId: string): Outcome {
    if r in t.runs && t.runs[r].runId.task in t.tasks
    then DecideOnRun(now, t.tasks[t.runs[r].runId.task].task, t.runs[r], cmd, cleanupId)
    else Refuse(UnknownRun)
  }

  lemma RunDecided(t: Tables, now: int, r: RunId, cmd: RunCommand, cleanupId: string, clock: int)
    requires AllGood(t, clock)
    ensures RunDecision(t, now, r, cmd, cleanupId) == RunOutcome(Slice(t, r.task), now, r, cmd, cleanupId)
  {
    RunReads(t, r, clock);
  }

  /** The maps after a run transaction. */
  function Committed(t: Tables, outcome: Outcome): Tables {
    if outcome.Decided? then Applied(t, outcome.decision) else t
  }

  lemma RunCommitted(t: Tables, q: Queue, now: int, r: RunId, cmd: RunCommand, cleanupId: string, outcome: Outcome,
                     clock: int)
    requires AllGood(t, clock) && clock <= now && OutboxQueue.Valid(q) && q.entries == t.outbox
    requires outcome == RunOutcome(Slice(t, r.task), now, r, cmd, cleanupId)
    ensures OnlySlice(t, Committed(t, outcome), r.task,
                      Ledgers.TransactRun(Slice(t, r.task), now, r, cmd, cleanupId))
    ensures AllGood(Committed(t, outcome), now) && LawfulAdds(q, Adds(Written(outcome)))
    ensures outcome.Decided? ==> outcome.decision.task.task == r.task
  {
    GoodLater(t, clock, now);
    if outcome.Decided? {
      CommandGood(t, now, r, cmd, cleanupId, outcome.decision);
      CommandAdds(t, q, now, r, cmd, cleanupId, outcome.decision);
    } else {
      AddsLawful(q, []);
    }
  }

  /** What a request emits is new, fresh and its own task's. */
  lemma RequestFresh(l: Ledger, now: int, input: RequestInput, d: Decision)
    requires Inv(l, now) && GoodInput(input) && input.taskId == l.id && RequestOutcome(l, now, input) == Decided(d)
    ensures FreshEntries(l, d.outbox) && Belongs(d, l.id)
  {
    var base := Recorded(l, input, d);
    var plan := RequestOutcomePlan(l, now, input, d);
    RecordedExtends(l, input, d);
    PlanEmits(base, d, plan, now);
    PlanBelongs(base, d, plan, now);
  }

  /** So does a request's. */
  lemma RequestAdds(t: Tables, q: Queue, now: int, input: RequestInput, d: Decision)
    requires AllGood(t, now) && GoodInput(input) && OutboxQueue.Valid(q) && q.entries == t.outbox
    requires RequestOutcome(Slice(t, input.taskId), now, input) == Decided(d)
    ensures LawfulAdds(q, Adds(d.outbox))
  {
    SliceGood(t, input.taskId, now);
    RequestFresh(Slice(t, input.taskId), now, input, d);
    RequestPublishes(Slice(t, input.taskId), now, input, d);
    SliceAddsLawful(t, q, input.taskId, d.outbox);
  }

  lemma AnswerAdds(t: Tables, q: Queue, now: int, input: RequestInput, outcome: Outcome, clock: int)
    requires AllGood(t, clock) && clock <= now && GoodInput(input) && OutboxQueue.Valid(q) && q.entries == t.outbox
    requires outcome == RequestOutcome(Slice(t, input.taskId), now, input)
    ensures LawfulAdds(q, Adds(Written(outcome)))
  {
    GoodLater(t, clock, now);
    if outcome.Decided? {
      RequestAdds(t, q, now, input, outcome.decision);
    } else {
      AddsLawful(q, []);
    }
  }

  lemma TaskWriteGood(t: Tables, now: int, id: TaskId, event: Event, d: Decision)
    requires AllGood(t, now) && TaskOutcome(Slice(t, id), now, event) == Decided(d)
    ensures OnlySlice(t, Applied(t, d), id, Commit(Slice(t, id), d))
    ensures AllGood(Applied(t, d), now) && d.task.task == id
  {
    assert Inv(Slice(t, id), now);
    TaskOutcomeChanges(Slice(t, id), now, event);
    CommitGood(t, id, d, TaskPlan, now);
  }

  /** One run rewritten, or none. */
  function WroteIn(t: Tables, run: Option<Run>): Tables {
    if run.None? then t else SetRunIn(t, run.value)
  }

  /** A queue write of run `r` changes its task's ledger alone. */
  lemma WriteGood(t: Tables, r: RunId, run: Option<Run>, k: Ledger, kind: Kind, now: int)
    requires AllGood(t, now) && (run.Some? ==> run.value.runId == r)
    requires k == (if run.None? then Slice(t, r.task) else SetRun(Slice(t, r.task), run.value))
    requires StepIs(Slice(t, r.task), k, kind, now)
    ensures OnlySlice(t, WroteIn(t, run), r.task, k) && AllGood(WroteIn(t, run), now)
  {
    assert Inv(Slice(t, r.task), now);
    if run.Some? {
      SetRunSlices(t, run.value);
      KindPreserves(Slice(t, r.task), k, kind, now);
      OnlySliceGood(t, WroteIn(t, run), r.task, k, now, now);
    }
  }

  function EnqueuedRun(t: Tables, now: int, r: RunId): Option<Run> {
    if r !in t.runs || t.runs[r].queue.Some? then None
    else Some(t.runs[r].(queue := Some(EmptyQueue(None)), updatedAt := now))
  }

  lemma EnqueueGood(t: Tables, now: int, r: RunId, clock: int)
    requires AllGood(t, clock) && clock <= now
    ensures OnlySlice(t, WroteIn(t, EnqueuedRun(t, now, r)), r.task, Ledgers.EnqueueRun(Slice(t, r.task), now, r))
    ensures AllGood(WroteIn(t, EnqueuedRun(t, now, r)), now)
  {
    GoodLater(t, clock, now);
    RunReads(t, r, now);
    assert Inv(Slice(t, r.task), now);
    var kind := EnqueueKind(Slice(t, r.task), now, r);
    WriteGood(t, r, EnqueuedRun(t, now, r), Ledgers.EnqueueRun(Slice(t, r.task), now, r), kind, now);
  }

  function ClaimedRun(t: Tables, now: int, r: RunId, claimedBy: string, subject: string, tokenHash: string,
                      aware: bool): Option<Run> {
    if r !in t.runs || !IsQueueAdmissionCandidate(t.runs[r], now) then None
    else Some(Decide.ClaimQueuedRun(t.runs[r], now, claimedBy, subject, tokenHash, aware))
  }

  lemma ClaimGood(t: Tables, now: int, r: RunId, claimedBy: string, subject: string, tokenHash: string, aware: bool,
                  clock: int)
    requires AllGood(t, clock) && clock <= now
    ensures var run := ClaimedRun(t, now, r, claimedBy, subject, tokenHash, aware);
            && OnlySlice(t, WroteIn(t, run), r.task,
                         Ledgers.ClaimRun(Slice(t, r.task), now, r, claimedBy, subject, tokenHash, aware))
            && AllGood(WroteIn(t, run), now)
            && (run.Some? ==> run.value.runId == r)
  {
    GoodLater(t, clock, now);
    RunReads(t, r, now);
    assert Inv(Slice(t, r.task), now);
    var kind := ClaimKind(Slice(t, r.task), now, r, claimedBy, subject, tokenHash, aware);
    WriteGood(t, r, ClaimedRun(t, now, r, claimedBy, subject, tokenHash, aware),
              Ledgers.ClaimRun(Slice(t, r.task), now, r, claimedBy, subject, tokenHash, aware), kind, now);
  }

  function ReleasedRun(t: Tables, now: int, r: RunId, claimedBy: string, tokenHash: string,
                       deferredUntil: Option<int>): Option<Run> {
    if r !in t.runs || !MayRelease(t.runs[r], claimedBy, tokenHash) then None
    else Some(t.runs[r].(queue := Some(EmptyQueue(deferredUntil)), updatedAt := now))
  }

  lemma ReleaseGood(t: Tables, now: int, r: RunId, claimedBy: string, tokenHash: string, deferredUntil: Option<int>,
                    clock: int)
    requires AllGood(t, clock) && clock <= now
    ensures var run := ReleasedRun(t, now, r, claimedBy, tokenHash, deferredUntil);
            && OnlySlice(t, WroteIn(t, run), r.task,
                         Ledgers.ReleaseRun(Slice(t, r.task), now, r, claimedBy, tokenHash, deferredUntil))
            && AllGood(WroteIn(t, run), now)
  {
    GoodLater(t, clock, now);
    RunReads(t, r, now);
    assert Inv(Slice(t, r.task), now);
    var kind := ReleaseKind(Slice(t, r.task), now, r, claimedBy, tokenHash, deferredUntil);
    WriteGood(t, r, ReleasedRun(t, now, r, claimedBy, tokenHash, deferredUntil),
              Ledgers.ReleaseRun(Slice(t, r.task), now, r, claimedBy, tokenHash, deferredUntil), kind, now);
  }

  /** The snapshot a request transaction reads from the maps. */
  function ReadState(t: Tables, input: RequestInput, requestId: string): RequestState {
    var id := input.taskId;
    var task := if id in t.tasks then Some(t.tasks[id].task) else None;
    var key := RequestKey(id, Caller, Raw(requestId));
    RequestState(
      task,
      if task.Some? && task.value.activeRunId.Some? then RunIn(t, task.value.activeRunId.value) else None,
      if key in t.requestRuns then RunIn(t, t.requestRuns[key]) else None,
      if input.sourceRevision.Some? && TaskText(id, input.sourceRevision.value.key) in t.sourceRevisions
      then Some(t.sourceRevisions[TaskText(id, input.sourceRevision.value.key)]) else None,
      requestId,
      if task.None? || (input.labelIntent.None? && !input.useEffectivePipeline) then RoutingEvidence(None, None)
      else
        var claimed := set r | r in t.runs && r.task == id && IsClaimed(t.runs[r]);
        RoutingEvidence(RunIn(t, RunId(id, task.value.runCount)),
                        if |claimed| <= PROVIDER_ROUTING_CLAIM_READ_LIMIT
                        then Some(set r | r in claimed && RetainsPhysicalClaim(t.runs[r])) else None))
  }

  /** A run id read from a task's own records is a run of that task. */
  lemma RunSliced(t: Tables, id: TaskId, r: RunId)
    requires r.task == id
    ensures RunAt(Slice(t, id), r) == RunIn(t, r)
  {
  }

  lemma PreviousSliced(t: Tables, id: TaskId, requestId: string, now: int)
    requires Inv(Slice(t, id), now)
    ensures var key := RequestKey(id, Caller, Raw(requestId));
            PreviousRun(Slice(t, id), requestId) == if key in t.requestRuns then RunIn(t, t.requestRuns[key]) else None
  {
    var l := Slice(t, id);
    var key := CallerKey(l, requestId);
    assert key in l.requestRuns <==> key in t.requestRuns;
    if key in l.requestRuns {
      assert GoodKey(l, key);
      RunSliced(t, id, l.requestRuns[key]);
    }
  }

  lemma ActiveSliced(t: Tables, id: TaskId, now: int)
    requires Inv(Slice(t, id), now)
    ensures id in t.tasks && t.tasks[id].task.activeRunId.Some? ==>
              ActiveRun(Slice(t, id)) == RunIn(t, t.tasks[id].task.activeRunId.value)
  {
    if id in t.tasks && t.tasks[id].task.activeRunId.Some? {
      assert TaskLocked(Slice(t, id));
      RunSliced(t, id, t.tasks[id].task.activeRunId.value);
    }
  }

  lemma EvidenceSliced(t: Tables, input: RequestInput)
    ensures ReadState(t, input, "").evidence == Evidence(Slice(t, input.taskId), input)
  {
    var l := Slice(t, input.taskId);
    assert (set r | r in t.runs && r.task == input.taskId && IsClaimed(t.runs[r])) == ClaimedRuns(l);
    assert (set r | r in ClaimedRuns(l) && RetainsPhysicalClaim(t.runs[r])) == PhysicalOwners(l);
  }

  /** The maps give the snapshot of the task's own ledger. */
  lemma StateSliced(t: Tables, input: RequestInput, requestId: string, now: int)
    requires Inv(Slice(t, input.taskId), now)
    ensures ReadState(t, input, requestId) == Snapshot(Slice(t, input.taskId), input, requestId)
  {
    ActiveSliced(t, input.taskId, now);
    PreviousSliced(t, input.taskId, requestId, now);
    EvidenceSliced(t, input);
    assert ReadState(t, input, requestId).evidence == ReadState(t, input, "").evidence;
    if input.sourceRevision.Some? { TextIn(t.sourceRevisions, input.taskId, input.sourceRevision.value.key); }
  }

  lemma BindingSlices(t: Tables, input: RequestInput)
    ensures OnlySlice(t, RecordBindingIn(t, input), input.taskId, RecordBinding(Slice(t, input.taskId), input))
  {
    forall o ensures Slice(RecordBindingIn(t, input), o)
                  == if o == input.taskId then RecordBinding(Slice(t, o), input) else Slice(t, o) {
      BindingSlice(t, input, o);
    }
  }

  lemma BindingKeeps(l: Ledger, input: RequestInput, now: int)
    requires Inv(l, now)
    ensures Inv(RecordBinding(l, input), now)
  {
    ExtendsPreserves(l, RecordBinding(l, input), now);
  }

  lemma BindingGood(t: Tables, input: RequestInput, now: int)
    requires AllGood(t, now)
    ensures OnlySlice(t, RecordBindingIn(t, input), input.taskId, RecordBinding(Slice(t, input.taskId), input))
    ensures AllGood(RecordBindingIn(t, input), now)
  {
    BindingSlices(t, input);
    SliceGood(t, input.taskId, now);
    BindingKeeps(Slice(t, input.taskId), input, now);
    OnlySliceGood(t, RecordBindingIn(t, input), input.taskId, RecordBinding(Slice(t, input.taskId), input), now, now);
  }

  /** What an accepted request leaves: its receipts and its commit. */
  lemma DecidedGood(t: Tables, now: int, input: RequestInput, d: Decision)
    requires AllGood(t, now) && GoodInput(input)
    requires RequestOutcome(Slice(t, input.taskId), now, input) == Decided(d)
    ensures OnlySlice(t, Applied(RecordedIn(t, input, d), d), input.taskId,
                      TransactRequest(Slice(t, input.taskId), now, input))
    ensures AllGood(Applied(RecordedIn(t, input, d), d), now) && d.task.task == input.taskId
  {
    var l := Slice(t, input.taskId);
    assert Inv(l, now);
    RequestWrites(l, now, input);
    var plan := RequestOutcomePlan(l, now, input, d);
    RecordedSlices(t, input, d);
    OnlySliceGood(t, RecordedIn(t, input, d), input.taskId, Recorded(l, input, d), now, now);
    CommitGood(RecordedIn(t, input, d), input.taskId, d, plan, now);
  }

  /** The maps after a request was answered. */
  function Answered(t: Tables, input: RequestInput, outcome: Outcome): Tables {
    match outcome
    case Threw => t
    case Refused(_, _) => RecordBindingIn(t, input)
    case Decided(d) => Applied(RecordedIn(t, input, d), d)
  }

  lemma AnsweredGood(t: Tables, now: int, input: RequestInput, outcome: Outcome, clock: int)
    requires AllGood(t, clock) && clock <= now && GoodInput(input)
    requires outcome == RequestOutcome(Slice(t, input.taskId), now, input)
    ensures OnlySlice(t, Answered(t, input, outcome), input.taskId,
                      Ledgers.TransactRequest(Slice(t, input.taskId), now, input))
    ensures AllGood(Answered(t, input, outcome), now)
    ensures outcome.Decided? ==> outcome.decision.task.task == input.taskId
  {
    GoodLater(t, clock, now);
    match outcome
    case Threw =>
    case Refused(_, _) => BindingGood(t, input, now);
    case Decided(d) => DecidedGood(t, now, input, d);
  }

  /** The admission as the maps decide it. */
  function DecidedFrom(t: Tables, now: int, input: RequestInput, requestId: Option<string>): Outcome {
    if input.sourceRevision.Some? && input.sourceRevision.value.key != input.requestId then Threw
    else if requestId.None? then Threw
    else DecideRequest(now, input, ReadState(t, input, requestId.value))
  }

  lemma DecidedFromSlice(t: Tables, now: int, input: RequestInput, requestId: Option<string>)
    requires requestId == ResolvedRequestId(Slice(t, input.taskId), input)
    requires requestId.Some? ==>
               ReadState(t, input, requestId.value) == Snapshot(Slice(t, input.taskId), input, requestId.value)
    ensures DecidedFrom(t, now, input, requestId) == RequestOutcome(Slice(t, input.taskId), now, input)
  {
  }

  class MemoryStore {
    var tasks: map<TaskId, VersionedTask>
    var runs: map<RunId, Run>
    var requestRuns: map<RequestKey, RunId>
    var sourceRevisions: map<TaskText, WorkRevision>
    var bindings: map<TaskText, Binding>
    var outbox: map<EntryId, OutboxEntry>
    var outboxOrder: seq<EntryId>

    function State(): Tables
      reads this
    {
      Tables(tasks, runs, requestRuns, sourceRevisions, bindings, outbox)
    }

    function Pending(): Queue
      reads this
    {
      Queue(outboxOrder, outbox)
    }

    ghost predicate Valid(clock: int)
      reads this
    {
      AllGood(State(), clock) && OutboxQueue.Valid(Pending())
    }

    constructor ()
      ensures State() == Tables(map[], map[], map[], map[], map[], map[])
      ensures forall clock :: Valid(clock)
    {
      tasks, runs, requestRuns := map[], map[], map[];
      sourceRevisions, bindings, outbox, outboxOrder := map[], map[], map[], [];
      new;
      forall clock, id ensures Inv(Slice(State(), id), clock) {
        assert Slice(State(), id) == EmptyLedger(id);
        EmptyIsGood(id, clock);
      }
    }

    // ------------------------------------------------------------------------ the commit

    /** Optimistic write: refused as a conflict unless the version is the one read. */
    method Apply(d: Decision, expectedRevision: Option<nat>) returns (applied: bool)
      requires OutboxQueue.Valid(Pending())
      modifies this
      ensures applied == (RevisionAt(old(tasks), d.task.task) == expectedRevision)
      ensures State() == if applied then Applied(old(State()), d) else old(State())
      ensures Pending() == if applied then QueueRun(old(Pending()), Adds(d.outbox)) else old(Pending())
      ensures OutboxQueue.Valid(Pending())
    {
      applied := RevisionAt(tasks, d.task.task) == expectedRevision;
      if applied {
        var id := d.task.task;
        tasks := tasks[id := VersionedTask(d.task, (if expectedRevision.Some? then expectedRevision.value else 0) + 1)];
        if d.run.Some? {
          runs := runs[d.run.value.runId := d.run.value];
          requestRuns := requestRuns[KeyOf(d.run.value) := d.run.value.runId];
        }
        if d.additionalRun.Some? {
          runs := runs[d.additionalRun.value.runId := d.additionalRun.value];
          requestRuns := requestRuns[KeyOf(d.additionalRun.value) := d.additionalRun.value.runId];
        }
        PutAll(d.outbox);
      }
    }

    /** Each entry is written over any other of its id, which keeps its place. */
    method PutAll(entries: seq<OutboxEntry>)
      requires OutboxQueue.Valid(Pending())
      modifies this`outbox, this`outboxOrder
      ensures outbox == PutEntries(old(outbox), entries)
      ensures Pending() == QueueRun(old(Pending()), Adds(entries))
      ensures OutboxQueue.Valid(Pending())
    {
      for i := 0 to |entries|
        invariant outbox == PutEntries(old(outbox), entries[..i])
        invariant Pending() == QueueRun(old(Pending()), Adds(entries[..i]))
      {
        var entry := entries[i];
        PutEntriesNext(old(outbox), entries, i);
        AddsNext(old(Pending()), entries, i);
        if entry.entryId !in outbox { outboxOrder := outboxOrder + [entry.entryId]; }
        outbox := outbox[entry.entryId := entry];
      }
      assert entries[..|entries|] == entries;
    }

    // ----------------------------------------------------------------------- transactions

    /** One decision on a run and its task, read and written in one step: the task's
        ledger takes exactly that step, and no other task's ledger changes. */
    method TransactRun(now: int, r: RunId, cmd: RunCommand, cleanupId: string, ghost clock: int)
      returns (outcome: Outcome)
      requires Valid(clock) && clock <= now
      modifies this
      ensures Valid(now)
      ensures outcome == RunOutcome(Slice(old(State()), r.task), now, r, cmd, cleanupId)
      ensures OnlySlice(old(State()), State(), r.task,
                        Ledgers.TransactRun(Slice(old(State()), r.task), now, r, cmd, cleanupId))
      ensures !outcome.Decided? ==> State() == old(State())
      ensures Pending() == QueueRun(old(Pending()), Adds(Written(outcome)))
      ensures LawfulAdds(old(Pending()), Adds(Written(outcome)))
    {
      RunDecided(State(), now, r, cmd, cleanupId, clock);
      outcome := RunDecision(State(), now, r, cmd, cleanupId);
      RunCommitted(State(), Pending(), now, r, cmd, cleanupId, outcome, clock);
      CommitDecided(r.task, outcome);
    }

    method CommitDecided(id: TaskId, outcome: Outcome)
      requires OutboxQueue.Valid(Pending())
      requires outcome.Decided? ==> outcome.decision.task.task == id
      modifies this
      ensures State() == Committed(old(State()), outcome)
      ensures Pending() == QueueRun(old(Pending()), Adds(Written(outcome)))
      ensures OutboxQueue.Valid(Pending())
    {
      if outcome.Decided? {
        var applied := Apply(outcome.decision, RevisionAt(tasks, id));
      }
    }

    /** The canonical request id under a binding; `None` is a mismatch. */
    method ResolveRequestBinding(input: RequestInput) returns (requestId: Option<string>)
      ensures requestId == ResolvedRequestId(Slice(State(), input.taskId), input)
    {
      requestId := Some(input.requestId);
      if input.requestBinding.Some? {
        var binding := input.requestBinding.value;
        var key := TaskText(input.taskId, binding.bindingKey);
        TextIn(bindings, input.taskId, binding.bindingKey);
        if key !in bindings {
          requestId := Some(binding.canonicalRequestId);
        } else if bindings[key].canonicalRequestId != binding.canonicalRequestId {
          requestId := None;
        } else if bindings[key].firstSourceRequestId == input.requestId {
          requestId := Some(binding.canonicalRequestId);
        }
      }
    }

    /** One admission: snapshot, decision, binding, commit and receipt in one step. */
    method TransactRequest(now: int, input: RequestInput, ghost clock: int) returns (outcome: Outcome)
      requires Valid(clock) && clock <= now && GoodInput(input)
      modifies this
      ensures Valid(now)
      ensures outcome == RequestOutcome(Slice(old(State()), input.taskId), now, input)
      ensures OnlySlice(old(State()), State(), input.taskId,
                        Ledgers.TransactRequest(Slice(old(State()), input.taskId), now, input))
      ensures Pending() == QueueRun(old(Pending()), Adds(Written(outcome)))
      ensures LawfulAdds(old(Pending()), Adds(Written(outcome)))
    {
      var requestId := ResolveRequestBinding(input);
      SliceGood(State(), input.taskId, clock);
      if requestId.Some? { StateSliced(State(), input, requestId.value, clock); }
      DecidedFromSlice(State(), now, input, requestId);
      outcome := DecidedFrom(State(), now, input, requestId);
      AnsweredGood(State(), now, input, outcome, clock);
      AnswerAdds(State(), Pending(), now, input, outcome, clock);
      Answer(input, outcome);
    }

    /** The binding is kept even by a refusal; the receipt only by an accepted write. */
    method Answer(input: RequestInput, outcome: Outcome)
      requires OutboxQueue.Valid(Pending())
      requires outcome.Decided? ==> outcome.decision.task.task == input.taskId
      modifies this
      ensures State() == Answered(old(State()), input, outcome)
      ensures Pending() == QueueRun(old(Pending()), Adds(Written(outcome)))
      ensures OutboxQueue.Valid(Pending())
    {
      if !outcome.Threw? { RecordNewBinding(input); }
      if outcome.Decided? {
        var applied := Apply(outcome.decision, RevisionAt(tasks, input.taskId));
        RecordNewRevision(input, outcome.decision);
      }
    }

    method RecordNewBinding(input: RequestInput)
      modifies this`bindings
      ensures State() == RecordBindingIn(old(State()), input) && Pending() == old(Pending())
    {
      if input.requestBinding.Some? {
        var binding := input.requestBinding.value;
        var key := TaskText(input.taskId, binding.bindingKey);
        if key !in bindings { bindings := bindings[key := Binding(binding.canonicalRequestId, input.requestId)]; }
      }
    }

    method RecordNewRevision(input: RequestInput, d: Decision)
      modifies this`sourceRevisions
      ensures State() == RecordRevisionIn(old(State()), input, d) && Pending() == old(Pending())
    {
      if input.sourceRevision.Some? && d.task.desiredRevision.Some?
         && d.task.desiredRevision.value.key == input.sourceRevision.value.key {
        var key := TaskText(input.taskId, input.sourceRevision.value.key);
        if key !in sourceRevisions { sourceRevisions := sourceRevisions[key := input.sourceRevision.value]; }
      }
    }

    // ------------------------------------------------------------------------ queue claims

    /** Rewrite one run's document. */
    method PutRun(run: Option<Run>)
      modifies this`runs
      ensures State() == WroteIn(old(State()), run) && Pending() == old(Pending())
    {
      if run.Some? { runs := runs[run.value.runId := run.value]; }
    }

    method EnqueueRun(now: int, r: RunId, ghost clock: int)
      requires Valid(clock) && clock <= now
      modifies this`runs
      ensures Valid(now)
      ensures OnlySlice(old(State()), State(), r.task, Ledgers.EnqueueRun(Slice(old(State()), r.task), now, r))
    {
      EnqueueGood(State(), now, r, clock);
      var run := EnqueuedRun(State(), now, r);
      PutRun(run);
    }

    /** Claim one admission candidate; which one is the fair selection's choice. */
    method ClaimQueuedRun(now: int, candidate: RunId, claimedBy: string, subject: string, tokenHash: string,
                          placementAware: bool, ghost clock: int) returns (claimed: Option<Run>)
      requires Valid(clock) && clock <= now
      modifies this`runs
      ensures Valid(now)
      ensures OnlySlice(old(State()), State(), candidate.task,
                        Ledgers.ClaimRun(Slice(old(State()), candidate.task), now, candidate, claimedBy, subject,
                                         tokenHash, placementAware))
      ensures claimed.Some? <==> candidate in old(runs) && IsQueueAdmissionCandidate(old(runs)[candidate], now)
      ensures claimed.Some? ==>
                && Claims.BelongsTo(claimed.value, subject, claimedBy, tokenHash)
                && runs == old(runs)[candidate := claimed.value]
      ensures claimed.None? ==> runs == old(runs)
    {
      ClaimGood(State(), now, candidate, claimedBy, subject, tokenHash, placementAware, clock);
      claimed := ClaimedRun(State(), now, candidate, claimedBy, subject, tokenHash, placementAware);
      if claimed.Some? {
        Claims.ClaimIsTheExecutors(runs[candidate], now, claimedBy, subject, tokenHash, placementAware);
      }
      PutRun(claimed);
    }

    method ReleaseQueuedRunClaim(now: int, r: RunId, claimedBy: string, tokenHash: string, deferredUntil: Option<int>,
                                 ghost clock: int) returns (released: bool)
      requires Valid(clock) && clock <= now
      modifies this`runs
      ensures Valid(now)
      ensures released <==>
                && r in old(runs) && IsLive(old(runs)[r].state) && old(runs)[r].credentialOperation.None?
                && IsClaimed(old(runs)[r]) && old(runs)[r].queue.value.claimedBy == Some(claimedBy)
                && old(runs)[r].queue.value.tokenHash == Some(tokenHash)
      ensures OnlySlice(old(State()), State(), r.task,
                        Ledgers.ReleaseRun(Slice(old(State()), r.task), now, r, claimedBy, tokenHash, deferredUntil))
    {
      ReleaseGood(State(), now, r, claimedBy, tokenHash, deferredUntil, clock);
      released := r in runs && MayRelease(runs[r], claimedBy, tokenHash);
      var run := ReleasedRun(State(), now, r, claimedBy, tokenHash, deferredUntil);
      PutRun(run);
    }

    // ---------------------------------------------------------------------------- outbox

    /** Lease the selected entries, each under its own fresh claim. */
    method ClaimPendingOutbox(drain: Drain, ghost clock: int) returns (claimed: seq<OutboxEntry>)
      requires Valid(clock)
      modifies this`outbox
      ensures Valid(clock)
      ensures State() == old(State()).(outbox := outbox)
      ensures Pending() == Claim(old(Pending()), drain)
      ensures |claimed| == |Selection(old(Pending()), drain)|
      ensures forall i | 0 <= i < |claimed| :: Holds(outbox, Selection(old(Pending()), drain)[i], claimed[i])
    {
      var ids := Selection(Pending(), drain);
      SelectionListed(Pending(), drain);
      claimed := LeaseEach(ids, drain);
      SameEntriesGood(old(State()), outbox, clock);
    }

    method LeaseEach(ids: seq<EntryId>, drain: Drain) returns (claimed: seq<OutboxEntry>)
      requires Listed(ids, outbox)
      modifies this`outbox
      ensures outbox == LeaseAll(old(outbox), ids, drain)
      ensures |claimed| == |ids| && forall j | 0 <= j < |ids| :: Holds(outbox, ids[j], claimed[j])
    {
      var entries := outbox;
      claimed := [];
      for i := 0 to |ids|
        invariant outbox == LeaseAll(entries, ids[..i], drain)
        invariant |claimed| == i
        invariant forall j | 0 <= j < i :: ids[j] in entries && claimed[j]
                    == LeaseEntry(entries[ids[j]], drain.claimId(ids[j]), drain.leaseExpiresAt, drain.now)
      {
        LeaseNext(entries, ids, i, drain);
        var next := LeaseEntry(entries[ids[i]], drain.claimId(ids[i]), drain.leaseExpiresAt, drain.now);
        outbox := outbox[ids[i] := next];
        claimed := claimed + [next];
      }
      assert ids[..|ids|] == ids;
    }

    /** Settle only for the claim that owns the lease. */
    method SettleOutbox(settlement: Settlement, ghost clock: int) returns (settled: bool)
      requires Valid(clock)
      modifies this`outbox
      ensures Valid(clock) && State() == old(State()).(outbox := outbox)
      ensures settled <==>
                && settlement.entryId in old(outbox)
                && OutboxEntries.LeasedBy(old(outbox)[settlement.entryId], settlement.claimId)
      ensures settled ==>
                && settlement.entryId in outbox
                && OutboxEntries.AsTold(old(outbox)[settlement.entryId], outbox[settlement.entryId], settlement)
      ensures Pending() == QueueNext(old(Pending()), SettledBy(settlement))
    {
      settled := false;
      if settlement.entryId in outbox {
        OutboxEntries.SettledAsTold(outbox[settlement.entryId], settlement);
        var entry := SettleOutboxEntry(outbox[settlement.entryId], settlement);
        if entry.Some? {
          outbox := outbox[settlement.entryId := entry.value];
          settled := true;
        }
      }
      SameEntriesGood(old(State()), outbox, clock);
    }

    method WakeOutbox(id: EntryId, now: int, ghost clock: int) returns (woken: bool)
      requires Valid(clock)
      modifies this`outbox
      ensures Valid(clock) && State() == old(State()).(outbox := outbox)
      ensures woken <==> && id in old(outbox) && old(outbox)[id].state.EntryPending?
                         && !OutboxEntries.Takeable(old(outbox)[id], now)
      ensures Pending() == QueueNext(old(Pending()), WokenAt(id, now))
    {
      woken := false;
      if id in outbox {
        var entry := WakeOutboxEntry(outbox[id], now);
        if entry.Some? {
          outbox := outbox[id := entry.value];
          woken := true;
        }
      }
      SameEntriesGood(old(State()), outbox, clock);
    }
  }
}
