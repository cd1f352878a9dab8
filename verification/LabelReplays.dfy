/** Where replaying a refused label succeeds after all: labels refused before routing
    recorded their clock, because the task did not exist or a guard stood in the way. */
module LabelReplays {
  import opened Model
  import opened Decide
  import opened Routing
  import opened Orchestrator
  import opened Ledgers
  import opened Labels

  /** A label request with nothing but its pipeline, parameters and perhaps work. */
  predicate Plain(input: RequestInput) {
    && input.labelIntent.Some? && input.taskId.Github?
    && input.issue.None? && input.sourceRevision.None? && input.requestBinding.None?
    && input.replaceQueuedRunId.None? && input.fallbackForPipeline.None? && input.providerFallback.None?
    && input.pipelineForStoredTask.None? && !input.useEffectivePipeline
    && input.expectedEffectivePipeline.None? && input.isStoredWorkCompatible.None? && input.isPipelineAuthorized.None?
  }

  function FirstRun(id: TaskId): RunId {
    RunId(id, 1)
  }

  /** One run, which no executor ever claimed and nothing holds, and its label on record. */
  ghost predicate OneRun(l: Ledger, b: RequestInput, live: bool)
    requires b.labelIntent.Some?
  {
    && l.id == b.taskId && l.task.Some? && l.runs.Keys == {FirstRun(l.id)}
    && (var run := l.runs[FirstRun(l.id)];
        run.queue.None? && run.credentialOperation.None? && (IsLive(run.state) <==> live) && run.runId == FirstRun(l.id)
        && KeyOf(run) == CallerKey(l, b.requestId))
    && l.requestRuns.Keys == {CallerKey(l, b.requestId)} && l.bindings == map[] && l.sourceRevisions == map[]
    && var t := l.task.value;
    && t.runCount == 1 && t.activeRunId == (if live then Some(FirstRun(l.id)) else None)
    && t.closedAt.None? && t.delivery.None? && t.issue.None?
    && t.providerRouting.Some? && t.providerRouting.value.requestId == Raw(b.requestId)
    && t.providerRouting.value.requestedAt == b.labelIntent.value.requestedAt
    && t.providerRouting.value.acceptedGeneration
       == Some(AcceptedGeneration(FirstRun(l.id), b.labelIntent.value.requestedAt, b.pipeline))
  }

  /** Without stored work a label on an unknown task is refused, and leaves no trace. */
  lemma RefusedUnknown(id: TaskId, now: int, a: RequestInput)
    requires Plain(a) && a.taskId == id && a.work.None?
    ensures RequestOutcome(EmptyLedger(id), now, a) == Refuse(WorkSpecMismatch)
    ensures TransactRequest(EmptyLedger(id), now, a) == EmptyLedger(id)
  {
  }

  /** With work it founds the task. */
  lemma Founds(id: TaskId, now: int, b: RequestInput)
    requires Plain(b) && b.taskId == id && b.work.Some?
    ensures OneRun(TransactRequest(EmptyLedger(id), now, b), b, true)
  {
    var o := RequestOutcome(EmptyLedger(id), now, b);
    assert o.Decided?;
  }

  lemma Frees(l: Ledger, now: int, b: RequestInput, cleanupId: string)
    requires Plain(b) && OneRun(l, b, true)
    ensures OneRun(TransactRun(l, now, FirstRun(l.id), CancelRequested(None, None), cleanupId), b, false)
  {
    var run := l.runs[FirstRun(l.id)];
    assert CancelRun(now, l.task.value, run, None, None).Decided?;
  }

  /** The label without its grant. */
  function Ungranted(a: RequestInput): RequestInput {
    a.(isPipelineAuthorized := None)
  }

  /** On a task its run has left, a newer label mints once its pipeline is granted. */
  lemma NewerLabelMints(l: Ledger, now: int, a: RequestInput, b: RequestInput)
    requires Plain(Ungranted(a)) && Plain(b) && OneRun(l, b, false) && a.taskId == l.id && a.requestId != b.requestId
    requires a.isPipelineAuthorized.Some? ==> a.isPipelineAuthorized.value(a.pipeline)
    requires b.labelIntent.value.requestedAt < a.labelIntent.value.requestedAt
    requires a.pipeline == b.pipeline || a.labelIntent.value.allowProviderChange
    ensures Accepted(RequestOutcome(l, now, a))
  {
    assert PhysicalOwners(l) == {} && ClaimedRuns(l) == {};
    var state := Snapshot(l, a, a.requestId);
    assert CallerKey(l, a.requestId) !in l.requestRuns;
    GuardsDecide(l, now, a, a.requestId);
  }

  /** What founding a task with one label and canceling its run leaves. */
  function FoundedAndFreed(l: Ledger, founded: int, freed: int, b: RequestInput, cleanupId: string): Ledger {
    TransactRun(TransactRequest(l, founded, b), freed, FirstRun(l.id), CancelRequested(None, None), cleanupId)
  }

  lemma FoundedIsFree(id: TaskId, founded: int, freed: int, b: RequestInput, cleanupId: string)
    requires Plain(b) && b.taskId == id && b.work.Some?
    ensures OneRun(FoundedAndFreed(EmptyLedger(id), founded, freed, b, cleanupId), b, false)
  {
    Founds(id, founded, b);
    Frees(TransactRequest(EmptyLedger(id), founded, b), freed, b, cleanupId);
  }

  /** A label refused because its task was unknown mints when it is replayed, though its
      clock is later than the founding label's alone. */
  lemma UnknownTaskReplayMints(id: TaskId, refused: int, founded: int, freed: int, replayed: int,
                               a: RequestInput, b: RequestInput, cleanupId: string)
    requires Plain(a) && Plain(b) && a.taskId == id && b.taskId == id && a.work.None? && b.work.Some?
    requires a.requestId != b.requestId && b.labelIntent.value.requestedAt < a.labelIntent.value.requestedAt
    requires a.pipeline == b.pipeline
    ensures RequestOutcome(EmptyLedger(id), refused, a) == Refuse(WorkSpecMismatch)
    ensures var l := FoundedAndFreed(TransactRequest(EmptyLedger(id), refused, a), founded, freed, b, cleanupId);
            Accepted(RequestOutcome(l, replayed, a))
  {
    RefusedUnknown(id, refused, a);
    FoundedIsFree(id, founded, freed, b, cleanupId);
    NewerLabelMints(FoundedAndFreed(EmptyLedger(id), founded, freed, b, cleanupId), replayed, a, b);
  }

  /** A label refused for want of a grant leaves no trace on a known task, and mints
      when it is replayed with the grant. */
  lemma ForbiddenReplayMints(id: TaskId, founded: int, freed: int, refused: int, replayed: int,
                             a: RequestInput, b: RequestInput, cleanupId: string)
    requires Plain(a) && Plain(b) && a.taskId == id && b.taskId == id && b.work.Some?
    requires a.requestId != b.requestId && b.labelIntent.value.requestedAt < a.labelIntent.value.requestedAt
    requires a.pipeline == b.pipeline
    ensures var l := FoundedAndFreed(EmptyLedger(id), founded, freed, b, cleanupId);
            var forbidden := a.(isPipelineAuthorized := Some(_ => false));
            var granted := a.(isPipelineAuthorized := Some(_ => true));
            && RequestOutcome(l, refused, forbidden) == Refuse(PipelineForbidden)
            && TransactRequest(l, refused, forbidden) == l
            && Accepted(RequestOutcome(l, replayed, granted))
  {
    FoundedIsFree(id, founded, freed, b, cleanupId);
    var l := FoundedAndFreed(EmptyLedger(id), founded, freed, b, cleanupId);
    var granted := a.(isPipelineAuthorized := Some(_ => true));
    assert Ungranted(granted) == a;
    NewerLabelMints(l, replayed, granted, b);
  }
}
