/** What holds in every reachable state of a task. */
module Theorems {
  import opened Model
  import opened Decide
  import opened Orchestrator
  import opened Ledgers
  import opened Invariants
  import opened Primitives
  import opened Fallback
  import opened CommandPlans
  import opened RequestPlans
  import opened Machine
  import opened History

  // --------------------------------------------------------------------- the mutex

  /** The numbers a task has handed out. */
  function Minted(id: TaskId, count: nat): set<RunId> {
    set n | 1 <= n <= count :: RunId(id, n)
  }

  /** At most one run is live and `activeRunId` names exactly it; the runs are numbered from
      one to the task's count; nothing is active on a closed task. */
  lemma AtMostOneLiveRun(id: TaskId, trace: seq<Tick>, clock: int)
    requires Timely(id, clock, trace)
    ensures var l := Exec(EmptyLedger(id), trace);
            && (forall a, b | a in l.runs && b in l.runs && IsLive(l.runs[a].state) && IsLive(l.runs[b].state) ::
                  a == b)
            && (forall r :: Active(l, r) <==> r in l.runs && IsLive(l.runs[r].state))
            && l.runs.Keys == Minted(id, RunCount(l))
            && (l.task.Some? && l.task.value.closedAt.Some? ==> l.task.value.activeRunId.None?)
  {
    var l := Exec(EmptyLedger(id), trace);
    ReachableIsGood(id, trace, clock);
    EmptyIsGood(id, clock);
    ExecPreserves(EmptyLedger(id), trace, clock);
    LockedRuns(l);
  }

  lemma LockedRuns(l: Ledger)
    requires MutexInv(l)
    ensures forall a, b | a in l.runs && b in l.runs && IsLive(l.runs[a].state) && IsLive(l.runs[b].state) :: a == b
    ensures forall r :: Active(l, r) <==> r in l.runs && IsLive(l.runs[r].state)
    ensures l.runs.Keys == Minted(l.id, RunCount(l))
  {
    forall r | r in l.runs ensures RunLocked(l, r) && r in Minted(l.id, RunCount(l)) {
      assert RunLocked(l, r);
      assert r == RunId(l.id, r.n);
    }
    forall r | r in Minted(l.id, RunCount(l)) ensures r in l.runs {
      assert RunId(l.id, r.n) in l.runs;
    }
  }

  // ------------------------------------------------------------------ idempotency

  /** The durable index is exactly a scan of all runs, so a key has at most one run. */
  lemma IndexIsScan(id: TaskId, trace: seq<Tick>, clock: int)
    requires Timely(id, clock, trace)
    ensures var l := Exec(EmptyLedger(id), trace);
            && (forall k, r :: (k in l.requestRuns && l.requestRuns[k] == r)
                                <==> (r in l.runs && KeyOf(l.runs[r]) == k))
            && (forall a, b | a in l.runs && b in l.runs && KeyOf(l.runs[a]) == KeyOf(l.runs[b]) :: a == b)
  {
    var l := Exec(EmptyLedger(id), trace);
    ReachableIsGood(id, trace, clock);
    forall r | r in l.runs ensures Indexed(l, r) {}
    forall k | k in l.requestRuns ensures GoodKey(l, k) {}
  }

  /** No guard of the request can refuse before its history is consulted. */
  predicate Unguarded(input: RequestInput) {
    input.sourceRevision.None? && input.isStoredWorkCompatible.None? && input.expectedEffectivePipeline.None?
    && input.isPipelineAuthorized.None?
  }

  /** Bindings are written once. */
  lemma StepKeepsBindings(l: Ledger, tick: Tick)
    ensures forall b | b in l.bindings :: b in Step(l, tick).bindings && Step(l, tick).bindings[b] == l.bindings[b]
  {
    if tick.event.Requested? { RequestKeepsBindings(l, tick.now, tick.event.input); }
  }

  lemma RequestKeepsBindings(l: Ledger, now: int, input: RequestInput)
    ensures forall b | b in l.bindings ::
              b in TransactRequest(l, now, input).bindings
              && TransactRequest(l, now, input).bindings[b] == l.bindings[b]
  {
    RequestWrites(l, now, input);
  }

  lemma {:induction false} BindingsKept(l: Ledger, trace: seq<Tick>, b: string)
    requires b in l.bindings
    ensures b in Exec(l, trace).bindings && Exec(l, trace).bindings[b] == l.bindings[b]
    decreases |trace|
  {
    if trace != [] {
      StepKeepsBindings(l, trace[0]);
      BindingsKept(Step(l, trace[0]), trace[1..], b);
    }
  }

  /** The request's binding, if it has one, is on record. */
  predicate Bound(l: Ledger, input: RequestInput) {
    input.requestBinding.Some? ==> input.requestBinding.value.bindingKey in l.bindings
  }

  /** An answered request leaves its binding on record, and the same request resolves
      to the same id again. */
  lemma AnsweredIsBound(l: Ledger, now: int, input: RequestInput)
    requires !RequestOutcome(l, now, input).Threw?
    ensures var k := TransactRequest(l, now, input);
            Bound(k, input) && ResolvedRequestId(k, input) == ResolvedRequestId(l, input)
  {
    RequestWrites(l, now, input);
  }

  lemma StillResolved(l: Ledger, k: Ledger, input: RequestInput)
    requires Bound(l, input)
    requires input.requestBinding.Some? ==>
               var b := input.requestBinding.value.bindingKey; b in k.bindings && k.bindings[b] == l.bindings[b]
    ensures ResolvedRequestId(k, input) == ResolvedRequestId(l, input)
  {
  }

  lemma ReplayKept(l: Ledger, clock: int, r: RunId, trace: seq<Tick>, input: RequestInput, requestId: string)
    requires Inv(l, clock) && Timely(l.id, clock, trace) && Bound(l, input)
    requires r in l.runs && KeyOf(l.runs[r]) == CallerKey(l, requestId)
    ensures var k := Exec(l, trace);
            && IndexInv(k) && r in k.runs && KeyOf(k.runs[r]) == CallerKey(k, requestId)
            && ResolvedRequestId(k, input) == ResolvedRequestId(l, input)
  {
    SettledForever(l, trace, clock, r);
    ExecPreserves(l, trace, clock);
    if input.requestBinding.Some? { BindingsKept(l, trace, input.requestBinding.value.bindingKey); }
    StillResolved(l, Exec(l, trace), input);
  }

  /** However long after its run settled, a replayed request is never decided
      again, bound or not; unguarded it returns the original run. */
  lemma ReplayReturnsOriginal(l: Ledger, clock: int, r: RunId, trace: seq<Tick>, input: RequestInput,
                              requestId: string, now: int)
    requires Inv(l, clock) && Timely(l.id, clock, trace)
    requires Bound(l, input) && ResolvedRequestId(l, input) == Some(requestId)
    requires r in l.runs && KeyOf(l.runs[r]) == CallerKey(l, requestId)
    ensures var k := Exec(l, trace);
            && r in k.runs
            && !RequestOutcome(k, now, input).Decided?
            && (Unguarded(input) ==> RequestOutcome(k, now, input) == Refused(DuplicateRequest, Some(k.runs[r])))
  {
    ReplayKept(l, clock, r, trace, input, requestId);
    ReplayAt(Exec(l, trace), r, input, requestId, now);
  }

  lemma ReplayAt(k: Ledger, r: RunId, input: RequestInput, requestId: string, now: int)
    requires IndexInv(k) && r in k.runs && KeyOf(k.runs[r]) == CallerKey(k, requestId)
    requires ResolvedRequestId(k, input) == Some(requestId)
    ensures !RequestOutcome(k, now, input).Decided?
    ensures Unguarded(input) ==> RequestOutcome(k, now, input) == Refused(DuplicateRequest, Some(k.runs[r]))
  {
    assert Indexed(k, r);
  }

  // -------------------------------------------------------------- source revisions

  lemma StepKeepsReceipts(l: Ledger, tick: Tick)
    ensures forall key | key in l.sourceRevisions ::
              key in Step(l, tick).sourceRevisions && Step(l, tick).sourceRevisions[key] == l.sourceRevisions[key]
  {
    if tick.event.Requested? { RequestKeepsReceipts(l, tick.now, tick.event.input); }
  }

  lemma RequestKeepsReceipts(l: Ledger, now: int, input: RequestInput)
    ensures var k := TransactRequest(l, now, input);
            forall key | key in l.sourceRevisions ::
              key in k.sourceRevisions && k.sourceRevisions[key] == l.sourceRevisions[key]
  {
    RequestWrites(l, now, input);
  }

  lemma {:induction false} ReceiptsKept(l: Ledger, trace: seq<Tick>, key: string)
    requires key in l.sourceRevisions
    ensures key in Exec(l, trace).sourceRevisions && Exec(l, trace).sourceRevisions[key] == l.sourceRevisions[key]
    decreases |trace|
  {
    if trace != [] {
      StepKeepsReceipts(l, trace[0]);
      ReceiptsKept(Step(l, trace[0]), trace[1..], key);
    }
  }

  /** An accepted revision is receipted exactly when the task came to desire it. */
  lemma ReceiptRecordsDesired(l: Ledger, now: int, input: RequestInput)
    requires input.sourceRevision.Some? && RequestOutcome(l, now, input).Decided?
    ensures var d := RequestOutcome(l, now, input).decision;
            var key := input.sourceRevision.value.key;
            key in TransactRequest(l, now, input).sourceRevisions
            <==> d.task.desiredRevision.Some? && d.task.desiredRevision.value.key == key
  {
    RequestWrites(l, now, input);
    var state := Snapshot(l, input, ResolvedRequestId(l, input).value);
    RequestCases(now, input, state, RequestOutcome(l, now, input).decision);
  }

  /** A receipted revision is never decided again, whatever happened to its run; under
      its key other content is a mismatch, the same content a duplicate. */
  lemma RevisionReplayRefused(l: Ledger, trace: seq<Tick>, input: RequestInput, now: int)
    requires input.sourceRevision.Some? && input.requestBinding.None? && input.isStoredWorkCompatible.None?
    requires input.sourceRevision.value.key == input.requestId && input.requestId in l.sourceRevisions
    ensures var o := RequestOutcome(Exec(l, trace), now, input);
            o.Refused? && o.reason == (if l.sourceRevisions[input.requestId] == input.sourceRevision.value
                                       then DuplicateRequest else WorkSpecMismatch)
  {
    ReceiptsKept(l, trace, input.requestId);
  }

  function Attempts(l: Ledger, key: string): set<RunId> {
    set r | r in l.runs && l.runs[r].sourceRevision.Some? && l.runs[r].sourceRevision.value.key == key
  }

  /** An injective numbering bounds a set. */
  lemma {:induction false} Pigeonhole(runs: map<RunId, Run>, rs: set<RunId>, bound: nat)
    requires forall r | r in rs :: r in runs && 1 <= Attempt(runs[r]) <= bound
    requires forall a, b | a in rs && b in rs && a != b :: Attempt(runs[a]) != Attempt(runs[b])
    ensures |rs| <= bound
    decreases bound
  {
    if bound == 0 {
      if r :| r in rs { assert false; }
    } else if r :| r in rs && Attempt(runs[r]) == bound {
      Pigeonhole(runs, rs - {r}, bound - 1);
    } else {
      Pigeonhole(runs, rs, bound - 1);
    }
  }

  /** At most three runs ever carry a source revision, and their
      attempt numbers differ. */
  lemma RevisionAttemptsAreBounded(id: TaskId, trace: seq<Tick>, clock: int, key: string)
    requires Timely(id, clock, trace)
    ensures var l := Exec(EmptyLedger(id), trace);
            && |Attempts(l, key)| <= 3
            && (forall a, b | a in Attempts(l, key) && b in Attempts(l, key) && a != b ::
                  Attempt(l.runs[a]) != Attempt(l.runs[b]))
  {
    var l := Exec(EmptyLedger(id), trace);
    ReachableIsGood(id, trace, clock);
    forall a, b | a in Attempts(l, key) && b in Attempts(l, key) && a != b
      ensures Attempt(l.runs[a]) != Attempt(l.runs[b])
    {
      assert AttemptsOrdered(l.runs[a], l.runs[b]) && SameRevision(l.runs[a], l.runs[b]);
    }
    forall r | r in Attempts(l, key) ensures 1 <= Attempt(l.runs[r]) <= 3 {
      assert GoodRun(l.runs[r], ClockAfter(clock, trace));
    }
    Pigeonhole(l.runs, Attempts(l, key), 3);
  }

  // ------------------------------------------------------------- delivery ownership

  /** While a delivery waits, the live run is an attributed reply or succeeds the bound run. */
  lemma WaitingDeliveryIsOwned(id: TaskId, trace: seq<Tick>, clock: int, r: RunId)
    requires Timely(id, clock, trace)
    ensures var l := Exec(EmptyLedger(id), trace);
            r in l.runs && IsLive(l.runs[r].state) && l.task.Some? && DeliveryWaiting(l.task.value) ==>
              (l.runs[r].params.mode == Some(Reply) && l.runs[r].params.replyPrincipal.Some?)
              || l.runs[r].params.deliveryPredecessor == Some(l.task.value.delivery.value.runId)
  {
    ReachableIsGood(id, trace, clock);
    var l := Exec(EmptyLedger(id), trace);
    if r in l.runs { assert RunLocked(l, r); }
  }

  lemma SettledFallsBack(l: Ledger, now: int, r: RunId, result: RunResult, authorized: seq<Pipeline>,
                         available: seq<Pipeline>)
    requires Reads(l, r, now) && IsLive(l.runs[r].state) && l.runs[r].credentialOperation.None?
    ensures var d := SettledReport(now, l.task.value, l.runs[r], result);
            d.run.Some? && SettleProviderFallback(now, d, authorized, available).Decided?
  {
    ReadsHeld(l, r, now);
    assert GoodPending(l.runs[r], now);
    var plan := ReportFallbackPlan(l, r, l.runs[r], now, result, authorized, available);
  }

  /** A report still deferred opens no cooldown, so nothing falls back yet. */
  lemma DeferredStays(now: int, t: Task, run: Run, result: RunResult, authorized: seq<Pipeline>,
                      available: seq<Pipeline>)
    requires run.credentialOperation.Some? && IsLive(run.state)
    ensures var d := Decision(t, Some(DeferredReport(now, run, result)), None, []);
            SettleProviderFallback(now, d, authorized, available) == Decided(d)
  {
  }

  /** So the fallback after a limit is never refused, by the delivery gate or any other:
      a report that is accepted is accepted with fallback too. */
  lemma FallbackNeverRefused(l: Ledger, now: int, r: RunId, fingerprint: Option<string>, result: RunResult,
                             authorized: seq<Pipeline>, available: seq<Pipeline>, d: Decision)
    requires Reads(l, r, now) && ReportResult(now, l.task.value, l.runs[r], fingerprint, result) == Decided(d)
    ensures ReportResultWithFallback(now, l.task.value, l.runs[r], fingerprint, result, authorized, available).Decided?
  {
    ReportCases(now, l.task.value, l.runs[r], fingerprint, result, d);
    if l.runs[r].credentialOperation.None? {
      SettledFallsBack(l, now, r, result, authorized, available);
    } else {
      DeferredStays(now, l.task.value, l.runs[r], result, authorized, available);
    }
  }

  // ------------------------------------------------------------------ start-up hold

  /** A claim without a heartbeat is recoverable within 60 minutes while it waits
      for placement and within 75 once placed; an unclaimed run never expires. */
  lemma StartupHoldIsBounded(id: TaskId, trace: seq<Tick>, clock: int, r: RunId)
    requires Timely(id, clock, trace)
    ensures var l := Exec(EmptyLedger(id), trace);
            r in l.runs ==>
              && (IsQueued(l.runs[r]) ==> forall now, t :: ExpireLease(now, t, l.runs[r]).Refused?)
              && (IsClaimed(l.runs[r]) && l.runs[r].queue.value.firstHeartbeatAt.None? ==>
                    var queue := l.runs[r].queue.value;
                    && queue.claimedAt.Some? && RecoveryDeadline(l.runs[r]).Some?
                    && (queue.startupPlacement.None? || !queue.startupPlacement.value.placed ==>
                          RecoveryDeadline(l.runs[r]).value <= queue.claimedAt.value + 60 * MINUTES)
                    && RecoveryDeadline(l.runs[r]).value
                         < queue.claimedAt.value + 75 * MINUTES)
  {
    ReachableIsGood(id, trace, clock);
    var l := Exec(EmptyLedger(id), trace);
    if r in l.runs { assert RunLocked(l, r) && GoodRun(l.runs[r], ClockAfter(clock, trace)); }
  }
}
