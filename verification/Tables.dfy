/** The store's maps as one value, and the ledger each task sees of them. */
module Tables {
  import opened Model
  import opened Decide
  import opened Orchestrator
  import opened Ledgers
  import opened Invariants
  import opened Primitives
  import opened Lawful
  import opened RequestPlans
  import Machine

  datatype VersionedTask = VersionedTask(task: Task, revision: nat)

  /** A key of the maps that hold one text per task. */
  datatype TaskText = TaskText(task: TaskId, text: string)

  datatype Tables = Tables(
    tasks: map<TaskId, VersionedTask>,
    runs: map<RunId, Run>,
    requestRuns: map<RequestKey, RunId>,
    sourceRevisions: map<TaskText, WorkRevision>,
    bindings: map<TaskText, Binding>,
    outbox: map<EntryId, OutboxEntry>)

  function RunsOf(runs: map<RunId, Run>, id: TaskId): map<RunId, Run> {
    map r | r in runs && r.task == id :: runs[r]
  }

  function KeysOf(keys: map<RequestKey, RunId>, id: TaskId): map<RequestKey, RunId> {
    map k | k in keys && k.task == id :: keys[k]
  }

  function TextsOf<V>(texts: map<TaskText, V>, id: TaskId): map<string, V> {
    map k | k in texts && k.task == id :: k.text := texts[k]
  }

  function EntriesOf(outbox: map<EntryId, OutboxEntry>, id: TaskId): map<EntryId, OutboxEntry> {
    map e | e in outbox && e.run.task == id :: outbox[e]
  }

  /** The ledger of one task. */
  function Slice(t: Tables, id: TaskId): Ledger {
    Ledger(id,
           if id in t.tasks then Some(t.tasks[id].task) else None,
           if id in t.tasks then t.tasks[id].revision else 0,
           RunsOf(t.runs, id), KeysOf(t.requestRuns, id),
           TextsOf(t.sourceRevisions, id), TextsOf(t.bindings, id), EntriesOf(t.outbox, id))
  }

  /** Every task's ledger satisfies the invariant. */
  ghost predicate AllGood(t: Tables, clock: int) {
    forall id :: Inv(Slice(t, id), clock)
  }

  /** Only the ledger of one task changed, to `k`. */
  ghost predicate OnlySlice(before: Tables, after: Tables, id: TaskId, k: Ledger) {
    Slice(after, id) == k && forall o | o != id :: Slice(after, o) == Slice(before, o)
  }

  lemma OnlySliceGood(before: Tables, after: Tables, id: TaskId, k: Ledger, clock: int, now: int)
    requires AllGood(before, clock) && clock <= now
    requires OnlySlice(before, after, id, k) && Inv(k, now)
    ensures AllGood(after, now)
  {
    forall o ensures Inv(Slice(after, o), now) {
      if o != id {
        assert Inv(Slice(before, o), clock);
        Machine.InvLater(Slice(before, o), clock, now);
      }
    }
  }

  // -------------------------------------------------------------------------- commits

  /** The decision concerns this task alone. */
  ghost predicate Belongs(d: Decision, id: TaskId) {
    && d.task.task == id
    && (d.run.Some? ==> d.run.value.runId.task == id)
    && (d.additionalRun.Some? ==> d.additionalRun.value.runId.task == id)
    && (forall i | 0 <= i < |d.outbox| :: d.outbox[i].entryId.run.task == id)
  }

  /** The maps after an accepted apply. */
  function Applied(t: Tables, d: Decision): Tables {
    var id := d.task.task;
    t.(tasks := t.tasks[id := VersionedTask(d.task, (if id in t.tasks then t.tasks[id].revision else 0) + 1)],
       runs := PutRun(PutRun(t.runs, d.run), d.additionalRun),
       requestRuns := PutKey(PutKey(t.requestRuns, d.run), d.additionalRun),
       outbox := PutEntries(t.outbox, d.outbox))
  }

  lemma PutRunSlice(runs: map<RunId, Run>, run: Option<Run>, id: TaskId, o: TaskId)
    requires run.Some? ==> run.value.runId.task == id
    ensures RunsOf(PutRun(runs, run), o) == if o == id then PutRun(RunsOf(runs, o), run) else RunsOf(runs, o)
  {
  }

  lemma PutKeySlice(keys: map<RequestKey, RunId>, run: Option<Run>, id: TaskId, o: TaskId)
    requires run.Some? ==> run.value.runId.task == id
    ensures KeysOf(PutKey(keys, run), o) == if o == id then PutKey(KeysOf(keys, o), run) else KeysOf(keys, o)
  {
  }

  lemma {:induction false} PutEntriesSlice(outbox: map<EntryId, OutboxEntry>, entries: seq<OutboxEntry>, id: TaskId,
                                           o: TaskId)
    requires forall i | 0 <= i < |entries| :: entries[i].entryId.run.task == id
    ensures EntriesOf(PutEntries(outbox, entries), o)
         == if o == id then PutEntries(EntriesOf(outbox, o), entries) else EntriesOf(outbox, o)
    decreases |entries|
  {
    if entries != [] {
      var next := outbox[entries[0].entryId := entries[0]];
      PutEntriesSlice(next, entries[1..], id, o);
      assert EntriesOf(next, o)
          == if o == id then EntriesOf(outbox, o)[entries[0].entryId := entries[0]] else EntriesOf(outbox, o);
    }
  }

  lemma AppliedRuns(runs: map<RunId, Run>, a: Option<Run>, b: Option<Run>, id: TaskId, o: TaskId)
    requires (a.Some? ==> a.value.runId.task == id) && (b.Some? ==> b.value.runId.task == id)
    ensures RunsOf(PutRun(PutRun(runs, a), b), o)
         == if o == id then PutRun(PutRun(RunsOf(runs, o), a), b) else RunsOf(runs, o)
  {
    PutRunSlice(runs, a, id, o);
    PutRunSlice(PutRun(runs, a), b, id, o);
  }

  lemma AppliedKeys(keys: map<RequestKey, RunId>, a: Option<Run>, b: Option<Run>, id: TaskId, o: TaskId)
    requires (a.Some? ==> a.value.runId.task == id) && (b.Some? ==> b.value.runId.task == id)
    ensures KeysOf(PutKey(PutKey(keys, a), b), o)
         == if o == id then PutKey(PutKey(KeysOf(keys, o), a), b) else KeysOf(keys, o)
  {
    PutKeySlice(keys, a, id, o);
    PutKeySlice(PutKey(keys, a), b, id, o);
  }

  lemma AppliedSlice(t: Tables, d: Decision, id: TaskId, o: TaskId)
    requires Belongs(d, id)
    ensures Slice(Applied(t, d), o) == if o == id then Commit(Slice(t, id), d) else Slice(t, o)
  {
    AppliedRuns(t.runs, d.run, d.additionalRun, id, o);
    AppliedKeys(t.requestRuns, d.run, d.additionalRun, id, o);
    PutEntriesSlice(t.outbox, d.outbox, id, o);
  }

  /** An apply commits to the decision's own ledger and to no other. */
  lemma AppliedSlices(t: Tables, d: Decision, id: TaskId)
    requires Belongs(d, id)
    ensures OnlySlice(t, Applied(t, d), id, Commit(Slice(t, id), d))
  {
    forall o ensures Slice(Applied(t, d), o) == if o == id then Commit(Slice(t, id), d) else Slice(t, o) {
      AppliedSlice(t, d, id, o);
    }
  }

  lemma PutTextSlice<V>(texts: map<TaskText, V>, id: TaskId, text: string, v: V, o: TaskId)
    ensures TextsOf(texts[TaskText(id, text) := v], o)
         == if o == id then TextsOf(texts, o)[text := v] else TextsOf(texts, o)
  {
    var next := texts[TaskText(id, text) := v];
    var expected := if o == id then TextsOf(texts, o)[text := v] else TextsOf(texts, o);
    forall s | s in expected ensures s in TextsOf(next, o) { assert TaskText(o, s) in next; }
  }

  /** Each lawful commit of a ledger concerns its task alone. */
  lemma TouchBelongs(l: Ledger, r: RunId, d: Decision, now: int)
    requires MutexInv(l) && l.task.Some? && r in l.runs && Touches(l.task.value, l.runs[r], d, now)
    ensures Belongs(d, l.id) && Commit(l, d).id == l.id
  {
    assert RunLocked(l, r);
  }

  lemma MintBelongs(l: Ledger, d: Decision, now: int)
    requires Mints(l, d, now)
    ensures Belongs(d, l.id)
  {
  }

  lemma SequenceBelongs(l: Ledger, r: RunId, touch: Decision, mint: Decision, now: int)
    requires MutexInv(l) && TouchThenMint(l, r, touch, mint, now)
    ensures Belongs(Followed(touch, mint), l.id) && Belongs(Joined(touch, mint), l.id)
  {
    TouchBelongs(l, r, touch, now);
    MintBelongs(Commit(l, touch), mint, now);
  }

  lemma PlanBelongs(l: Ledger, d: Decision, plan: Plan, now: int)
    requires MutexInv(l) && Follows(l, d, plan, now)
    ensures Belongs(d, l.id)
  {
    match plan {
      case TouchPlan(r) => TouchBelongs(l, r, d, now);
      case TaskPlan =>
      case MintPlan => MintBelongs(l, d, now);
      case FollowPlan(r, touch, mint) => SequenceBelongs(l, r, touch, mint, now);
      case JoinPlan(r, touch, mint) => SequenceBelongs(l, r, touch, mint, now);
    }
  }

  // ---------------------------------------------------------------------- one-map writes

  function SetRunIn(t: Tables, run: Run): Tables {
    t.(runs := t.runs[run.runId := run])
  }

  lemma SetRunSlices(t: Tables, run: Run)
    ensures OnlySlice(t, SetRunIn(t, run), run.runId.task, SetRun(Slice(t, run.runId.task), run))
  {
    forall o ensures RunsOf(SetRunIn(t, run).runs, o)
                  == if o == run.runId.task then PutRun(RunsOf(t.runs, o), Some(run)) else RunsOf(t.runs, o) {
      PutRunSlice(t.runs, Some(run), run.runId.task, o);
    }
  }

  /** A request's receipts, written before its decision is applied. */
  function RecordedIn(t: Tables, input: RequestInput, d: Decision): Tables {
    RecordRevisionIn(RecordBindingIn(t, input), input, d)
  }

  function RecordBindingIn(t: Tables, input: RequestInput): Tables {
    if input.requestBinding.None? then t
    else
      var binding := input.requestBinding.value;
      var k := TaskText(input.taskId, binding.bindingKey);
      if k in t.bindings then t
      else t.(bindings := t.bindings[k := Binding(binding.canonicalRequestId, input.requestId)])
  }

  function RecordRevisionIn(t: Tables, input: RequestInput, d: Decision): Tables {
    if input.sourceRevision.None? || d.task.desiredRevision.None?
       || d.task.desiredRevision.value.key != input.sourceRevision.value.key
       || TaskText(input.taskId, input.sourceRevision.value.key) in t.sourceRevisions then t
    else t.(sourceRevisions := t.sourceRevisions[TaskText(input.taskId, input.sourceRevision.value.key)
                                                   := input.sourceRevision.value])
  }

  lemma TextIn<V>(texts: map<TaskText, V>, id: TaskId, text: string)
    ensures text in TextsOf(texts, id) <==> TaskText(id, text) in texts
    ensures text in TextsOf(texts, id) ==> TextsOf(texts, id)[text] == texts[TaskText(id, text)]
  {
    assert TaskText(id, text) in texts ==> text in TextsOf(texts, id);
  }

  lemma BindingSlice(t: Tables, input: RequestInput, o: TaskId)
    ensures Slice(RecordBindingIn(t, input), o)
         == if o == input.taskId then RecordBinding(Slice(t, o), input) else Slice(t, o)
  {
    if input.requestBinding.Some? {
      var binding := input.requestBinding.value;
      TextIn(t.bindings, input.taskId, binding.bindingKey);
      PutTextSlice(t.bindings, input.taskId, binding.bindingKey, Binding(binding.canonicalRequestId, input.requestId),
                   o);
    }
  }

  lemma RevisionSlice(t: Tables, input: RequestInput, d: Decision, o: TaskId)
    ensures Slice(RecordRevisionIn(t, input, d), o)
         == if o == input.taskId then RecordRevision(Slice(t, o), input, d) else Slice(t, o)
  {
    if input.sourceRevision.Some? {
      TextIn(t.sourceRevisions, input.taskId, input.sourceRevision.value.key);
      PutTextSlice(t.sourceRevisions, input.taskId, input.sourceRevision.value.key, input.sourceRevision.value, o);
    }
  }

  lemma RecordedSlices(t: Tables, input: RequestInput, d: Decision)
    ensures OnlySlice(t, RecordedIn(t, input, d), input.taskId, Recorded(Slice(t, input.taskId), input, d))
  {
    forall o ensures Slice(RecordedIn(t, input, d), o)
                  == if o == input.taskId then Recorded(Slice(t, o), input, d) else Slice(t, o) {
      BindingSlice(t, input, o);
      RevisionSlice(RecordBindingIn(t, input), input, d, o);
    }
  }
}
