/** Every commit is a touch of one existing run, a change of the task alone, or
    a touch followed by the minting of one run. Each primitive preserves the
    invariant; this module proves that once, for all decisions. */
module Primitives {
  import opened Model
  import opened Decide
  import opened Ledgers
  import opened Invariants

  // --------------------------------------------------------------- the primitives

  ghost predicate Settles(before: Run, after: Run) {
    IsLive(before.state) && !IsLive(after.state)
  }

  ghost predicate IssueGrows(before: Task, after: Task) {
    before.issue.Some? ==> IssueAgrees(after, before.issue)
  }

  ghost predicate TaskKept(before: Task, after: Task, settles: bool) {
    && after.task == before.task
    && after.runCount == before.runCount
    && after.activeRunId == (if settles then None else before.activeRunId)
    && (before.closedAt.Some? ==> after.closedAt.Some?)
    && (after.closedAt.Some? && before.closedAt.None? ==> after.activeRunId.None?)
    && IssueGrows(before, after)
  }

  /** A settled run may bind its own delivery; an idle task's binding may move on. */
  ghost predicate DeliveryMoves(before: Task, after: Task, r: RunId, settles: bool) {
    || after.delivery == before.delivery
    || (settles && after.delivery.Some? && after.delivery.value.runId == r)
    || (before.activeRunId.None? && before.delivery.Some?
        && (after.delivery.None?
            || (after.delivery.value.runId == before.delivery.value.runId
                && after.delivery.value.correctionRunId == before.delivery.value.correctionRunId
                && (before.delivery.value.state.Complete? ==> after.delivery.value.state.Complete?))))
  }

  ghost predicate EffectKept(before: Task, after: Task, id: EntryId, r: RunId, settles: bool) {
    && id.run == r
    && match id.effect
       case DispatchRun => false
       case IssueStart => true
       case DeliveryOutcome => (settles || AwaitsDelivery(Some(before), r)) && !AwaitsDelivery(Some(after), r)
       case _ => settles
  }

  ghost predicate Distinct(entries: seq<OutboxEntry>) {
    forall i, j | 0 <= i < j < |entries| :: entries[i].entryId != entries[j].entryId
  }

  ghost predicate Emits(entries: seq<OutboxEntry>, id: EntryId) {
    exists i | 0 <= i < |entries| :: entries[i].entryId == id
  }

  /** The run-local half of a touch. */
  ghost predicate RunKept(before: Run, after: Run) {
    && SameIdentity(before, after)
    && before.events <= after.events
    && (IsLive(after.state) ==> IsLive(before.state))
    && (!IsLive(before.state) ==> after.state == before.state && after.result == before.result)
  }

  ghost predicate SameClaim(a: RunQueue, b: RunQueue) {
    a.claimedAt == b.claimedAt && a.claimedBy == b.claimedBy && a.claimedBySubject == b.claimedBySubject
    && a.tokenHash == b.tokenHash
  }

  /** Placement moves once from waiting to placed, on one Job, by newer observations. */
  ghost predicate PlacementMoves(a: RunQueue, b: RunQueue) {
    || a.startupPlacement == b.startupPlacement
    || (a.startupPlacement.Some? && b.startupPlacement.Some?
        && !a.startupPlacement.value.placed
        && a.startupPlacement.value.observedAt < b.startupPlacement.value.observedAt
        && b.startupPlacement.value.jobUid.Some?
        && (a.startupPlacement.value.jobUid.Some? ==>
              b.startupPlacement.value.jobUid == a.startupPlacement.value.jobUid))
  }

  /** Within a claim its identity is fixed and its deadlines never move back. */
  ghost predicate ClaimMoves(before: Run, after: Run) {
    IsClaimed(before) && IsClaimed(after) ==>
      var a, b := before.queue.value, after.queue.value;
      && SameClaim(a, b) && PlacementMoves(a, b)
      && (a.firstHeartbeatAt.Some? ==> b.firstHeartbeatAt == a.firstHeartbeatAt)
      && (a.providerProcessStartedAt.Some? ==> b.providerProcessStartedAt == a.providerProcessStartedAt)
      && (a.placementObservedAt.Some? ==>
            b.placementObservedAt.Some? && a.placementObservedAt.value <= b.placementObservedAt.value)
      && RecoveryDeadline(before).value <= RecoveryDeadline(after).value
      && a.startDeadlineAt.Some? && b.startDeadlineAt.Some? && a.startDeadlineAt.value <= b.startDeadlineAt.value
  }

  /** An open operation prepares and acknowledges in turn; only a settled one ends. */
  ghost predicate OperationMoves(before: Option<CredentialOperation>, after: Option<CredentialOperation>) {
    if before.None? then after.Some? ==> after.value.mutationSequence == 0 && after.value.mutation.None?
    else if after.None? then before.value.mutation.None?
    else
      var a, b := before.value, after.value;
      && a.id == b.id && a.kind == b.kind && a.claimFingerprint == b.claimFingerprint
      && if b.mutationSequence == a.mutationSequence then b.mutation == a.mutation || b.mutation.None?
         else b.mutationSequence == a.mutationSequence + 1 && a.mutation.None? && b.mutation.Some?
  }

  /** A recorded result is the reported one, but for the mark of a superseded revision. */
  ghost predicate AsReported(reported: RunResult, recorded: RunResult) {
    recorded == reported || recorded == reported.(summary := Some(Superseded))
  }

  /** A deferred report waits, or is the result the run settles with. */
  ghost predicate PendingMoves(before: Run, after: Run) {
    before.credentialPendingResult.Some? ==>
      if IsLive(after.state) then after.credentialPendingResult == before.credentialPendingResult
      else after.state.Finished? && after.result.Some?
           && AsReported(before.credentialPendingResult.value.result, after.result.value)
  }

  /** `d` rewrites the run `before` of task `t`, and mints nothing. */
  ghost predicate Touches(t: Task, before: Run, d: Decision, now: int) {
    && d.run.Some? && d.additionalRun.None?
    && var after := d.run.value;
       var settles := Settles(before, after);
    && RunKept(before, after)
    && ClaimMoves(before, after)
    && OperationMoves(before.credentialOperation, after.credentialOperation)
    && PendingMoves(before, after)
    && GoodRun(after, now)
    && TaskKept(t, d.task, settles)
    && (d.task.desiredRevision == t.desiredRevision || d.task.desiredRevision.None?)
    && DeliveryMoves(t, d.task, before.runId, settles)
    && (forall i | 0 <= i < |d.outbox| :: EffectKept(t, d.task, d.outbox[i].entryId, before.runId, settles))
    && Distinct(d.outbox)
    && (settles && !Unreported(after) ==> Emits(d.outbox, EntryId(ReportOutcome, before.runId)))
  }

  /** `d` changes the task alone; a newly desired revision is receipted and unminted. */
  ghost predicate TaskChange(l: Ledger, d: Decision) {
    && d.run.None? && d.additionalRun.None? && d.outbox == []
    && l.task.Some?
    && TaskKept(l.task.value, d.task, false)
    && d.task.delivery == l.task.value.delivery
    && (d.task.desiredRevision == l.task.value.desiredRevision || d.task.desiredRevision.None?
        || (d.task.desiredRevision.value.key in l.sourceRevisions && Unminted(l, d.task.desiredRevision.value.key)))
  }

  /** The binding is carried over, or marked with the correction just minted. */
  ghost predicate DeliveryRetained(before: Option<Task>, after: Task) {
    if before.None? || before.value.delivery.None? then after.delivery.None?
    else after.delivery.Some?
         && (after.delivery == before.value.delivery
             || after.delivery.value == before.value.delivery.value.(correctionRunId := after.activeRunId))
  }

  /** A revision run is the newest attempt of the revision its task desires. */
  ghost predicate FreshRevision(l: Ledger, t: Task, m: Run) {
    && (t.desiredRevision.Some? ==> t.desiredRevision.value.key in l.sourceRevisions)
    && (m.sourceRevision.Some? ==>
          && t.desiredRevision.Some? && t.desiredRevision.value.key == m.sourceRevision.value.key
          && (forall r | r in l.runs && SameRevision(l.runs[r], m) :: Attempt(l.runs[r]) < Attempt(m)))
  }

  ghost predicate FreshKey(l: Ledger, d: Decision, k: RequestKey) {
    k !in l.requestRuns && SpentKey(l.(task := Some(d.task)), k)
  }

  /** `d` mints the next run of an idle, open task. */
  ghost predicate Mints(l: Ledger, d: Decision, now: int) {
    && d.run.Some? && d.additionalRun.None?
    && var m := d.run.value;
    && (l.task.Some? ==> l.task.value.activeRunId.None? && l.task.value.closedAt.None?
                         && IssueGrows(l.task.value, d.task))
    && d.task.task == l.id
    && m.runId == RunId(l.id, RunCount(l) + 1)
    && d.task.runCount == RunCount(l) + 1
    && d.task.activeRunId == Some(m.runId)
    && d.task.closedAt.None?
    && m.state.Pending?
    && GoodRun(m, now)
    && FreshKey(l, d, KeyOf(m))
    && FreshRevision(l, d.task, m)
    && |d.outbox| == 1 && d.outbox[0].entryId == EntryId(DispatchRun, m.runId)
    && DeliveryRetained(l.task, d.task)
    && OwnsDelivery(d.task, m.params)
    && IssueAgrees(d.task, m.issue)
  }

  // ------------------------------------------------------------- writing entries

  function Ids(entries: seq<OutboxEntry>): set<EntryId> {
    set i | 0 <= i < |entries| :: entries[i].entryId
  }

  lemma {:induction false} PutEntriesKeys(outbox: map<EntryId, OutboxEntry>, entries: seq<OutboxEntry>)
    ensures PutEntries(outbox, entries).Keys == outbox.Keys + Ids(entries)
    decreases |entries|
  {
    if entries != [] {
      PutEntriesKeys(outbox[entries[0].entryId := entries[0]], entries[1..]);
      assert Ids(entries) == {entries[0].entryId} + Ids(entries[1..]) by {
        assert forall i | 1 <= i < |entries| :: entries[i] == entries[1..][i - 1];
        assert forall i | 0 <= i < |entries[1..]| :: entries[1..][i] == entries[i + 1];
      }
    }
  }

  lemma {:induction false} PutEntriesJoin(outbox: map<EntryId, OutboxEntry>, a: seq<OutboxEntry>, b: seq<OutboxEntry>)
    ensures PutEntries(outbox, a + b) == PutEntries(PutEntries(outbox, a), b)
    decreases |a|
  {
    if a == [] {
      assert a + b == b;
    } else {
      assert (a + b)[0] == a[0] && (a + b)[1..] == a[1..] + b;
      PutEntriesJoin(outbox[a[0].entryId := a[0]], a[1..], b);
    }
  }

  // ------------------------------------------------------- a touch, group by group

  /** `k` is `l` with the run `r` and the task rewritten. */
  ghost predicate Rewrites(l: Ledger, k: Ledger, r: RunId) {
    && r in l.runs && r in k.runs && l.task.Some? && k.task.Some?
    && k.runs == l.runs[r := k.runs[r]]
    && k.id == l.id && k.requestRuns == l.requestRuns && k.sourceRevisions == l.sourceRevisions
    && RunKept(l.runs[r], k.runs[r])
    && TaskKept(l.task.value, k.task.value, Settles(l.runs[r], k.runs[r]))
    && DeliveryMoves(l.task.value, k.task.value, r, Settles(l.runs[r], k.runs[r]))
  }

  lemma TouchMutex(l: Ledger, k: Ledger, r: RunId)
    requires MutexInv(l) && Rewrites(l, k, r)
    ensures MutexInv(k)
  {
    forall o | o in k.runs ensures RunLocked(k, o) { assert RunLocked(l, o) && RunLocked(l, r); }
  }

  lemma TouchKey(l: Ledger, k: Ledger, r: RunId, x: RequestKey)
    requires MutexInv(l) && Rewrites(l, k, r) && x in l.requestRuns && GoodKey(l, x)
    ensures x in k.requestRuns && GoodKey(k, x)
  {
    assert RunLocked(l, r);
  }

  lemma TouchIndex(l: Ledger, k: Ledger, r: RunId)
    requires MutexInv(l) && IndexInv(l) && Rewrites(l, k, r)
    ensures IndexInv(k)
  {
    forall o | o in k.runs ensures Indexed(k, o) { assert Indexed(l, o); }
    forall x | x in k.requestRuns ensures GoodKey(k, x) { TouchKey(l, k, r, x); }
  }

  lemma TouchRevision(l: Ledger, k: Ledger, r: RunId)
    requires MutexInv(l) && Rewrites(l, k, r)
    requires ReceiptInv(l) && AttemptInv(l) && CoalesceInv(l)
    requires k.task.value.desiredRevision == l.task.value.desiredRevision || k.task.value.desiredRevision.None?
    ensures ReceiptInv(k) && AttemptInv(k) && CoalesceInv(k)
  {
    forall a, b | a in k.runs && b in k.runs && a != b ensures AttemptsOrdered(k.runs[a], k.runs[b]) {
      assert AttemptsOrdered(l.runs[a], l.runs[b]);
    }
  }

  lemma TouchUnreported(before: Run, after: Run)
    requires RunKept(before, after) && !IsLive(before.state) && Unreported(before)
    ensures Unreported(after)
  {
    var i :| 0 <= i < |before.events| && HandsOver(before.events[i]);
    assert after.events[i] == before.events[i];
  }

  /** The outbox of `k` is that of `l` with the effects of a touch added. */
  ghost predicate TouchedOutbox(l: Ledger, k: Ledger, r: RunId, entries: seq<OutboxEntry>)
    requires Rewrites(l, k, r)
  {
    var settles := Settles(l.runs[r], k.runs[r]);
    && k.outbox.Keys == l.outbox.Keys + Ids(entries)
    && (forall i | 0 <= i < |entries| :: EffectKept(l.task.value, k.task.value, entries[i].entryId, r, settles))
    && (settles && !Unreported(k.runs[r]) ==> Emits(entries, EntryId(ReportOutcome, r)))
  }

  lemma TouchEffect(l: Ledger, k: Ledger, r: RunId, entries: seq<OutboxEntry>)
    requires MutexInv(l) && EffectInv(l) && Rewrites(l, k, r) && TouchedOutbox(l, k, r, entries)
    ensures EffectInv(k)
  {
    forall e | e in k.outbox ensures GoodEntry(k, e) {
      if e in l.outbox {
        assert GoodEntry(l, e) && RunLocked(l, r);
      }
    }
    forall o | o in k.runs ensures RunEffects(k, o) {
      assert RunEffects(l, o);
      if o == r && !IsLive(l.runs[r].state) && Unreported(l.runs[r]) {
        TouchUnreported(l.runs[r], k.runs[r]);
      }
    }
  }

  lemma TouchDelivery(l: Ledger, k: Ledger, r: RunId)
    requires MutexInv(l) && DeliveryInv(l) && Rewrites(l, k, r)
    ensures DeliveryInv(k)
  {
    assert RunLocked(l, r);
  }

  /** A touch preserves the invariant. */
  lemma TouchPreserves(l: Ledger, r: RunId, d: Decision, now: int)
    requires Inv(l, now) && l.task.Some? && r in l.runs
    requires Touches(l.task.value, l.runs[r], d, now)
    ensures Inv(Commit(l, d), now)
  {
    var k := Commit(l, d);
    assert RunLocked(l, r) && Indexed(l, r);
    TouchedLedger(l, k, r, d, now);
    TouchRuns(l, k, r, d, now);
    TouchMutex(l, k, r);
    TouchIndex(l, k, r);
    TouchRevision(l, k, r);
    TouchEffect(l, k, r, d.outbox);
    TouchDelivery(l, k, r);
  }

  lemma TouchRuns(l: Ledger, k: Ledger, r: RunId, d: Decision, now: int)
    requires RunsInv(l, now) && r in l.runs && r in k.runs && k.runs == l.runs[r := k.runs[r]]
    requires l.task.Some? && Touches(l.task.value, l.runs[r], d, now) && k.runs[r] == d.run.value
    ensures RunsInv(k, now)
    ensures d.task.desiredRevision == l.task.value.desiredRevision || d.task.desiredRevision.None?
  {
  }

  lemma TouchedLedger(l: Ledger, k: Ledger, r: RunId, d: Decision, now: int)
    requires l.task.Some? && r in l.runs && l.runs[r].runId == r && Indexed(l, r)
    requires Touches(l.task.value, l.runs[r], d, now)
    requires k == Commit(l, d)
    ensures Rewrites(l, k, r) && TouchedOutbox(l, k, r, d.outbox)
    ensures k.runs[r] == d.run.value
  {
    PutEntriesKeys(l.outbox, d.outbox);
    assert KeyOf(d.run.value) == KeyOf(l.runs[r]);
  }

  // ------------------------------------------------------------- the task alone

  lemma TaskChangeLock(l: Ledger, k: Ledger, d: Decision)
    requires MutexInv(l) && IndexInv(l) && TaskChange(l, d) && k == Commit(l, d)
    ensures MutexInv(k) && IndexInv(k)
  {
    forall o | o in k.runs ensures RunLocked(k, o) && Indexed(k, o) {
      assert RunLocked(l, o) && Indexed(l, o);
    }
    forall x | x in k.requestRuns ensures GoodKey(k, x) { assert GoodKey(l, x); }
  }

  lemma TaskChangeEffect(l: Ledger, k: Ledger, d: Decision)
    requires EffectInv(l) && DeliveryInv(l) && TaskChange(l, d) && k == Commit(l, d)
    ensures EffectInv(k) && DeliveryInv(k)
  {
    forall o | o in k.runs ensures RunEffects(k, o) { assert RunEffects(l, o); }
    forall e | e in k.outbox ensures GoodEntry(k, e) { assert GoodEntry(l, e); }
  }

  lemma TaskChangeRevision(l: Ledger, k: Ledger, d: Decision)
    requires MutexInv(l) && ReceiptInv(l) && AttemptInv(l) && CoalesceInv(l) && TaskChange(l, d) && k == Commit(l, d)
    ensures ReceiptInv(k) && AttemptInv(k) && CoalesceInv(k)
  {
  }

  /** A change of the task alone preserves the invariant. */
  lemma TaskChangePreserves(l: Ledger, d: Decision, now: int)
    requires Inv(l, now) && TaskChange(l, d)
    ensures Inv(Commit(l, d), now)
  {
    var k := Commit(l, d);
    TaskChangeLock(l, k, d);
    TaskChangeEffect(l, k, d);
    TaskChangeRevision(l, k, d);
  }

  // ------------------------------------------------------- a mint, group by group

  lemma MintedLedger(l: Ledger, k: Ledger, d: Decision, now: int)
    requires MutexInv(l) && Mints(l, d, now) && k == Commit(l, d)
    ensures var m := d.run.value;
            && m.runId !in l.runs && m.runId.task == l.id
            && k.id == l.id && k.task == Some(d.task) && k.sourceRevisions == l.sourceRevisions
            && k.runs == l.runs[m.runId := m]
            && k.requestRuns == l.requestRuns[KeyOf(m) := m.runId]
            && k.outbox.Keys == l.outbox.Keys + {EntryId(DispatchRun, m.runId)}
  {
    var m := d.run.value;
    assert m.runId in l.runs ==> RunLocked(l, m.runId);
    PutEntriesKeys(l.outbox, d.outbox);
    assert Ids(d.outbox) == {d.outbox[0].entryId};
  }

  lemma MintMutex(l: Ledger, k: Ledger, d: Decision, now: int)
    requires MutexInv(l) && Mints(l, d, now) && k == Commit(l, d)
    ensures MutexInv(k)
  {
    MintedLedger(l, k, d, now);
    forall o | o in k.runs ensures RunLocked(k, o) {
      if o in l.runs { assert RunLocked(l, o); }
    }
    forall n | 1 <= n <= RunCount(k) ensures RunId(k.id, n) in k.runs {
      if n <= RunCount(l) { assert RunId(l.id, n) in l.runs; }
    }
  }

  lemma MintIndex(l: Ledger, k: Ledger, d: Decision, now: int)
    requires MutexInv(l) && IndexInv(l) && Mints(l, d, now) && k == Commit(l, d)
    ensures IndexInv(k)
  {
    MintedLedger(l, k, d, now);
    var m := d.run.value;
    forall o | o in k.runs ensures Indexed(k, o) {
      if o != m.runId { assert Indexed(l, o); }
    }
    forall x | x in k.requestRuns ensures GoodKey(k, x) {
      if x != KeyOf(m) {
        assert GoodKey(l, x);
        assert forall r :: AwaitsCorrection(k, r) ==> AwaitsCorrection(l, r);
      }
    }
  }

  lemma MintRevision(l: Ledger, k: Ledger, d: Decision, now: int)
    requires MutexInv(l) && ReceiptInv(l) && AttemptInv(l) && Mints(l, d, now) && k == Commit(l, d)
    ensures ReceiptInv(k) && AttemptInv(k) && CoalesceInv(k)
  {
    MintedLedger(l, k, d, now);
    forall a, b | a in k.runs && b in k.runs && a != b ensures AttemptsOrdered(k.runs[a], k.runs[b]) {
      if a in l.runs { assert RunLocked(l, a); }
      if a in l.runs && b in l.runs { assert AttemptsOrdered(l.runs[a], l.runs[b]); }
    }
  }

  lemma MintEffect(l: Ledger, k: Ledger, d: Decision, now: int)
    requires MutexInv(l) && EffectInv(l) && Mints(l, d, now) && k == Commit(l, d)
    ensures EffectInv(k)
  {
    MintedLedger(l, k, d, now);
    forall e | e in k.outbox ensures GoodEntry(k, e) {
      if e in l.outbox { assert GoodEntry(l, e); }
    }
    forall o | o in k.runs ensures RunEffects(k, o) {
      if o in l.runs { assert RunEffects(l, o); }
    }
  }

  lemma MintDelivery(l: Ledger, k: Ledger, d: Decision, now: int)
    requires MutexInv(l) && DeliveryInv(l) && Mints(l, d, now) && k == Commit(l, d)
    ensures DeliveryInv(k)
  {
    MintedLedger(l, k, d, now);
    forall r | r in k.runs
      ensures IssueAgrees(k.task.value, k.runs[r].issue)
      ensures Active(k, r) ==> OwnsDelivery(k.task.value, k.runs[r].params)
    {
      if r in l.runs { assert RunLocked(l, r); }
    }
  }

  /** Minting preserves the invariant. */
  lemma MintPreserves(l: Ledger, d: Decision, now: int)
    requires Inv(l, now) && Mints(l, d, now)
    ensures Inv(Commit(l, d), now)
  {
    var k := Commit(l, d);
    MintedLedger(l, k, d, now);
    MintMutex(l, k, d, now);
    MintIndex(l, k, d, now);
    MintRevision(l, k, d, now);
    MintEffect(l, k, d, now);
    MintDelivery(l, k, d, now);
  }

  // ----------------------------------------------------- a touch, then a mint

  /** A joint commit is its two halves in sequence, but for one revision. */
  lemma FollowedIsSequence(l: Ledger, touch: Decision, mint: Decision)
    requires touch.run.Some? && touch.additionalRun.None? && mint.run.Some? && mint.additionalRun.None?
    requires touch.run.value.runId != mint.run.value.runId && KeyOf(touch.run.value) != KeyOf(mint.run.value)
    ensures Commit(l, Followed(touch, mint)) == Commit(Commit(l, touch), mint).(revision := l.revision + 1)
    ensures Commit(l, Joined(touch, mint)) == Commit(Commit(l, touch), mint).(revision := l.revision + 1)
  {
    PutEntriesJoin(l.outbox, touch.outbox, mint.outbox);
    var a, b := touch.run.value, mint.run.value;
    assert l.runs[a.runId := a][b.runId := b] == l.runs[b.runId := b][a.runId := a];
    assert l.requestRuns[KeyOf(a) := a.runId][KeyOf(b) := b.runId]
        == l.requestRuns[KeyOf(b) := b.runId][KeyOf(a) := a.runId];
  }
}
