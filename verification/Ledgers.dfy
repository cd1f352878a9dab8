/** The durable state of one task and its transactions, as values. Every key of
    the store's maps names its task, so a store is one ledger per task; class
    `MemoryStores.MemoryStore` holds the maps and refines these functions. */
module Ledgers {
  import opened Model
  import opened Decide
  import opened Routing
  import opened Orchestrator

  const PROVIDER_ROUTING_CLAIM_READ_LIMIT := 1000

  datatype Binding = Binding(canonicalRequestId: string, firstSourceRequestId: string)

  /** `task` is absent until the first admission; `revision` is its version. */
  datatype Ledger = Ledger(
    id: TaskId,
    task: Option<Task>,
    revision: nat,
    runs: map<RunId, Run>,
    requestRuns: map<RequestKey, RunId>,
    sourceRevisions: map<string, WorkRevision>,
    bindings: map<string, Binding>,
    outbox: map<EntryId, OutboxEntry>)

  function EmptyLedger(id: TaskId): Ledger {
    Ledger(id, None, 0, map[], map[], map[], map[], map[])
  }

  function RunAt(l: Ledger, r: RunId): Option<Run> {
    if r in l.runs then Some(l.runs[r]) else None
  }

  function ActiveRun(l: Ledger): Option<Run> {
    if l.task.Some? && l.task.value.activeRunId.Some? then RunAt(l, l.task.value.activeRunId.value) else None
  }

  // --------------------------------------------------------------------- commit

  function PutRun(runs: map<RunId, Run>, run: Option<Run>): map<RunId, Run> {
    if run.None? then runs else runs[run.value.runId := run.value]
  }

  function PutKey(keys: map<RequestKey, RunId>, run: Option<Run>): map<RequestKey, RunId> {
    if run.None? then keys else keys[KeyOf(run.value) := run.value.runId]
  }

  function PutEntries(outbox: map<EntryId, OutboxEntry>, entries: seq<OutboxEntry>): map<EntryId, OutboxEntry>
    decreases |entries|
  {
    if entries == [] then outbox
    else PutEntries(outbox[entries[0].entryId := entries[0]], entries[1..])
  }

  /** The task, its runs, their request keys and the effects, all together. */
  function Commit(l: Ledger, d: Decision): Ledger {
    l.(task := Some(d.task),
       revision := l.revision + 1,
       runs := PutRun(PutRun(l.runs, d.run), d.additionalRun),
       requestRuns := PutKey(PutKey(l.requestRuns, d.run), d.additionalRun),
       outbox := PutEntries(l.outbox, d.outbox))
  }

  function CommitOutcome(l: Ledger, outcome: Outcome): Ledger {
    if outcome.Decided? then Commit(l, outcome.decision) else l
  }

  // --------------------------------------------------------------- transactions

  function RunOutcome(l: Ledger, now: int, r: RunId, cmd: RunCommand, cleanupId: string): Outcome {
    if r !in l.runs || l.task.None? then Refuse(UnknownRun)
    else DecideOnRun(now, l.task.value, l.runs[r], cmd, cleanupId)
  }

  function TransactRun(l: Ledger, now: int, r: RunId, cmd: RunCommand, cleanupId: string): Ledger {
    CommitOutcome(l, RunOutcome(l, now, r, cmd, cleanupId))
  }

  /** The first request under a binding takes its canonical id; `None` is a mismatch. */
  function ResolvedRequestId(l: Ledger, input: RequestInput): Option<string> {
    if input.requestBinding.None? then Some(input.requestId)
    else
      var binding := input.requestBinding.value;
      if binding.bindingKey !in l.bindings then Some(binding.canonicalRequestId)
      else if l.bindings[binding.bindingKey].canonicalRequestId != binding.canonicalRequestId then None
      else Some(if l.bindings[binding.bindingKey].firstSourceRequestId == input.requestId
                then binding.canonicalRequestId else input.requestId)
  }

  function ClaimedRuns(l: Ledger): set<RunId> {
    set r | r in l.runs && IsClaimed(l.runs[r])
  }

  function PhysicalOwners(l: Ledger): set<RunId> {
    set r | r in l.runs && RetainsPhysicalClaim(l.runs[r])
  }

  /** Beyond the read limit the owners are unknown, not none. */
  function Evidence(l: Ledger, input: RequestInput): RoutingEvidence {
    if (input.labelIntent.None? && !input.useEffectivePipeline) || l.task.None? then RoutingEvidence(None, None)
    else
      RoutingEvidence(
        RunAt(l, RunId(l.id, l.task.value.runCount)),
        if |ClaimedRuns(l)| <= PROVIDER_ROUTING_CLAIM_READ_LIMIT then Some(PhysicalOwners(l)) else None)
  }

  function CallerKey(l: Ledger, requestId: string): RequestKey {
    RequestKey(l.id, Caller, Raw(requestId))
  }

  function PreviousRun(l: Ledger, requestId: string): Option<Run> {
    if CallerKey(l, requestId) in l.requestRuns then RunAt(l, l.requestRuns[CallerKey(l, requestId)]) else None
  }

  function RevisionReceipt(l: Ledger, input: RequestInput): Option<WorkRevision> {
    if input.sourceRevision.Some? && input.sourceRevision.value.key in l.sourceRevisions
    then Some(l.sourceRevisions[input.sourceRevision.value.key]) else None
  }

  function Snapshot(l: Ledger, input: RequestInput, requestId: string): RequestState {
    RequestState(l.task, ActiveRun(l), PreviousRun(l, requestId), RevisionReceipt(l, input), requestId,
                 Evidence(l, input))
  }

  /** A revision must be requested under its own key; a binding must agree. */
  function RequestOutcome(l: Ledger, now: int, input: RequestInput): Outcome {
    var requestId := ResolvedRequestId(l, input);
    if input.sourceRevision.Some? && input.sourceRevision.value.key != input.requestId then Threw
    else if requestId.None? then Threw
    else DecideRequest(now, input, Snapshot(l, input, requestId.value))
  }

  function RecordBinding(l: Ledger, input: RequestInput): Ledger {
    if input.requestBinding.None? || input.requestBinding.value.bindingKey in l.bindings then l
    else l.(bindings := l.bindings[input.requestBinding.value.bindingKey :=
                                     Binding(input.requestBinding.value.canonicalRequestId, input.requestId)])
  }

  /** Admission receipts record even revisions that were coalesced. */
  function RecordRevision(l: Ledger, input: RequestInput, d: Decision): Ledger {
    if input.sourceRevision.None? || d.task.desiredRevision.None?
       || d.task.desiredRevision.value.key != input.sourceRevision.value.key
       || input.sourceRevision.value.key in l.sourceRevisions then l
    else l.(sourceRevisions := l.sourceRevisions[input.sourceRevision.value.key := input.sourceRevision.value])
  }

  function TransactRequest(l: Ledger, now: int, input: RequestInput): Ledger {
    var outcome := RequestOutcome(l, now, input);
    match outcome
    case Threw => l
    case Refused(_, _) => RecordBinding(l, input)
    case Decided(d) => Commit(RecordRevision(RecordBinding(l, input), input, d), d)
  }

  // ------------------------------------------------------- queue claims on the run

  function SetRun(l: Ledger, run: Run): Ledger {
    l.(runs := l.runs[run.runId := run])
  }

  function EmptyQueue(deferredUntil: Option<int>): RunQueue {
    RunQueue(Queued, None, deferredUntil, None, None, None, None, None, None, None, None)
  }

  function EnqueueRun(l: Ledger, now: int, r: RunId): Ledger {
    if r !in l.runs || l.runs[r].queue.Some? then l
    else SetRun(l, l.runs[r].(queue := Some(EmptyQueue(None)), updatedAt := now))
  }

  /** Claim one selected candidate; fair selection among candidates is the caller's. */
  function ClaimRun(l: Ledger, now: int, r: RunId, claimedBy: string, subject: string, tokenHash: string,
                    placementAware: bool): Ledger {
    if r !in l.runs || !IsQueueAdmissionCandidate(l.runs[r], now) then l
    else SetRun(l, ClaimQueuedRun(l.runs[r], now, claimedBy, subject, tokenHash, placementAware))
  }

  predicate MayRelease(run: Run, claimedBy: string, tokenHash: string) {
    && IsLive(run.state) && run.credentialOperation.None? && IsClaimant(run, tokenHash)
    && run.queue.value.claimedBy == Some(claimedBy)
  }

  function ReleaseRun(l: Ledger, now: int, r: RunId, claimedBy: string, tokenHash: string,
                      deferredUntil: Option<int>): Ledger {
    if r !in l.runs || !MayRelease(l.runs[r], claimedBy, tokenHash) then l
    else SetRun(l, l.runs[r].(queue := Some(EmptyQueue(deferredUntil)), updatedAt := now))
  }
}
