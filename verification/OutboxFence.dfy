/** Outbox leases over whole histories: a settled entry is final, and only the latest
    claim may settle, once. */
module OutboxFence {
  import opened Model
  import opened Decide
  import opened Ledgers
  import opened Invariants
  import opened Primitives
  import opened Outbox
  import opened Orchestrator
  import opened TouchSteps
  import opened CommandPlans
  import opened RequestPlans
  import opened Machine
  import opened History
  import opened Effects
  import opened Frames
  import opened Audit

  predicate Final(entry: OutboxEntry) {
    entry.state.Done? || entry.state.Failed?
  }

  /** The event leases this entry to this claim. */
  predicate LeasesTo(event: Event, id: EntryId, claimId: string) {
    event.EntryLeased? && event.entry == id && event.claimId == claimId
  }

  predicate SettlesFor(event: Event, id: EntryId, claimId: string) {
    event.EntrySettled? && event.settlement.entryId == id && event.settlement.claimId == claimId
  }

  function Leases(trace: seq<Tick>, id: EntryId, claimId: string): nat {
    if trace == [] then 0
    else (if LeasesTo(trace[0].event, id, claimId) then 1 else 0) + Leases(trace[1..], id, claimId)
  }

  predicate Owned(l: Ledger, id: EntryId, claimId: string) {
    id in l.outbox && OwnsLease(l.outbox[id], claimId)
  }

  /** Settlements of the entry that the store accepts from this claim. */
  function AcceptedSettlements(l: Ledger, trace: seq<Tick>, id: EntryId, claimId: string): nat
    decreases |trace|
  {
    if trace == [] then 0
    else (if SettlesFor(trace[0].event, id, claimId) && Owned(l, id, claimId) then 1 else 0)
         + AcceptedSettlements(Step(l, trace[0]), trace[1..], id, claimId)
  }

  // ---------------------------------------------------------------- the outbox's events

  /** Leasing, settling and waking, as one entry sees them: a settled entry stays as it
      is, and ownership comes from a lease and ends with a settlement. */
  ghost predicate EntryMoves(before: OutboxEntry, after: OutboxEntry, id: EntryId, event: Event) {
    && (Final(before) ==> after == before)
    && before.attempts <= after.attempts
    && forall c :: OwnsLease(after, c) ==>
                     LeasesTo(event, id, c) || (OwnsLease(before, c) && !SettlesFor(event, id, c))
  }

  lemma LeaseMoves(entry: OutboxEntry, id: EntryId, claimId: string, leaseExpiresAt: int, now: int)
    requires !Final(entry)
    ensures EntryMoves(entry, LeaseEntry(entry, claimId, leaseExpiresAt, now), id,
                       EntryLeased(id, claimId, leaseExpiresAt))
  {
  }

  lemma SettleMoves(entry: OutboxEntry, settlement: Settlement)
    ensures var after := SettleOutboxEntry(entry, settlement);
            EntryMoves(entry, if after.Some? then after.value else entry, settlement.entryId, EntrySettled(settlement))
  {
  }

  lemma StillMoves(entry: OutboxEntry, after: OutboxEntry, id: EntryId, event: Event)
    requires after == entry && forall c :: !SettlesFor(event, id, c)
    ensures EntryMoves(entry, after, id, event)
  {
  }

  /** Every entry, whatever its effect, is moved so by the outbox's own events. */
  lemma OutboxEventMoves(l: Ledger, now: int, event: Event, id: EntryId)
    requires OutboxEvent(event) && id in l.outbox
    ensures id in EntryStep(l, now, event).outbox
    ensures EntryMoves(l.outbox[id], EntryStep(l, now, event).outbox[id], id, event)
  {
    var k := EntryStep(l, now, event);
    match event {
      case EntryLeased(o, claimId, leaseExpiresAt) =>
        if k.outbox[id] == l.outbox[id] {
          StillMoves(l.outbox[id], k.outbox[id], id, event);
        } else {
          LeaseMoves(l.outbox[id], id, claimId, leaseExpiresAt, now);
        }
      case EntrySettled(settlement) =>
        if settlement.entryId == id {
          SettleMoves(l.outbox[id], settlement);
        } else {
          StillMoves(l.outbox[id], k.outbox[id], id, event);
        }
      case EntryWoken(o) =>
    }
  }

  // -------------------------------------------------------------------------- ownership

  lemma {:induction false} PutEntriesFresh(outbox: map<EntryId, OutboxEntry>, entries: seq<OutboxEntry>, id: EntryId)
    requires AllFresh(entries) && id in Ids(entries)
    ensures id in PutEntries(outbox, entries) && FreshEntry(PutEntries(outbox, entries)[id])
    decreases |entries|
  {
    var next := outbox[entries[0].entryId := entries[0]];
    var rest := entries[1..];
    assert forall i | 0 <= i < |rest| :: rest[i] == entries[i + 1];
    if id in Ids(rest) {
      PutEntriesFresh(next, rest, id);
    } else {
      assert forall i | 1 <= i < |entries| :: entries[i].entryId == rest[i - 1].entryId;
      PutEntriesKeep(next, rest, id);
    }
  }

  /** An entry the step emits is fresh afterwards; any other a commit leaves alone. */
  lemma CommitMovesEntry(l: Ledger, tick: Tick, clock: int, id: EntryId)
    requires Inv(l, clock) && clock <= tick.now && !OutboxEvent(tick.event)
    ensures var k := Step(l, tick);
            if id in Ids(Emitted(l, tick)) then id in k.outbox && FreshEntry(k.outbox[id])
            else (id in k.outbox <==> id in l.outbox) && (id in l.outbox ==> k.outbox[id] == l.outbox[id])
  {
    StepWrites(l, tick);
    if id in Ids(Emitted(l, tick)) {
      StepPublishes(l, tick, clock);
      PutEntriesFresh(l.outbox, Emitted(l, tick), id);
    } else {
      PutEntriesKeys(l.outbox, Emitted(l, tick));
      if id in l.outbox { PutEntriesKeep(l.outbox, Emitted(l, tick), id); }
    }
  }

  lemma OutboxEventOwns(l: Ledger, now: int, event: Event, id: EntryId, claimId: string)
    requires OutboxEvent(event) && Owned(EntryStep(l, now, event), id, claimId)
    ensures LeasesTo(event, id, claimId) || (Owned(l, id, claimId) && !SettlesFor(event, id, claimId))
  {
    if id in l.outbox { OutboxEventMoves(l, now, event, id); }
  }

  /** A claim owns an entry only since a lease of its own, and until it settles it. */
  lemma StepOwns(l: Ledger, tick: Tick, clock: int, id: EntryId, claimId: string)
    requires Inv(l, clock) && clock <= tick.now && Owned(Step(l, tick), id, claimId)
    ensures LeasesTo(tick.event, id, claimId) || (Owned(l, id, claimId) && !SettlesFor(tick.event, id, claimId))
  {
    if OutboxEvent(tick.event) {
      OutboxEventOwns(l, tick.now, tick.event, id, claimId);
    } else {
      CommitMovesEntry(l, tick, clock, id);
    }
  }

  function Ownership(l: Ledger, id: EntryId, claimId: string): nat {
    if Owned(l, id, claimId) then 1 else 0
  }

  /** With fresh claim ids, each claim settles its entry at most once, and a claim
      that no longer owns the lease never does. */
  lemma {:induction false} ClaimSettlesAtMostOnce(l: Ledger, trace: seq<Tick>, clock: int, id: EntryId, claimId: string)
    requires Inv(l, clock) && Timely(l.id, clock, trace)
    requires Leases(trace, id, claimId) + Ownership(l, id, claimId) <= 1
    ensures AcceptedSettlements(l, trace, id, claimId) <= Leases(trace, id, claimId) + Ownership(l, id, claimId)
    decreases |trace|
  {
    if trace != [] {
      var k, rest := Step(l, trace[0]), trace[1..];
      if Owned(k, id, claimId) { StepOwns(l, trace[0], clock, id, claimId); }
      StepPreserves(l, trace[0], clock);
      ClaimSettlesAtMostOnce(k, rest, trace[0].now, id, claimId);
      assert AcceptedSettlements(l, trace, id, claimId)
          == (if SettlesFor(trace[0].event, id, claimId) && Owned(l, id, claimId) then 1 else 0)
             + AcceptedSettlements(k, rest, id, claimId);
    }
  }

  // --------------------------------------------------------------------------- finality

  /** The entry is the same after every step of the history. */
  ghost predicate Undisturbed(l: Ledger, trace: seq<Tick>, id: EntryId)
    decreases |trace|
  {
    && id in l.outbox
    && (trace == [] || (var k := Step(l, trace[0]);
                        id in k.outbox && k.outbox[id] == l.outbox[id] && Undisturbed(k, trace[1..], id)))
  }

  /** No step of the history emits the entry. */
  ghost predicate NeverEmitted(l: Ledger, trace: seq<Tick>, id: EntryId)
    decreases |trace|
  {
    trace == [] || (id !in Ids(Emitted(l, trace[0])) && NeverEmitted(Step(l, trace[0]), trace[1..], id))
  }

  lemma FinalUnlessEmitted(l: Ledger, tick: Tick, clock: int, id: EntryId)
    requires Inv(l, clock) && clock <= tick.now && id in l.outbox && Final(l.outbox[id])
    ensures id in Step(l, tick).outbox
    ensures Step(l, tick).outbox[id] == l.outbox[id] <==> id !in Ids(Emitted(l, tick))
  {
    if OutboxEvent(tick.event) {
      OutboxEventMoves(l, tick.now, tick.event, id);
      EventEmitsNothing(l, tick);
    } else {
      CommitMovesEntry(l, tick, clock, id);
    }
  }

  lemma EventEmitsNothing(l: Ledger, tick: Tick)
    requires OutboxEvent(tick.event)
    ensures Ids(Emitted(l, tick)) == {}
  {
  }

  lemma OnceStep(l: Ledger, tick: Tick, clock: int, id: EntryId)
    requires Inv(l, clock) && clock <= tick.now && Admissible(l.id, tick.event) && id in l.outbox && OnceOnly(id)
    ensures id !in Ids(Emitted(l, tick))
  {
    StepEmits(l, tick, clock);
    OnceNotEmitted(l, Emitted(l, tick), id);
  }

  lemma {:induction false} UndisturbedExactly(l: Ledger, trace: seq<Tick>, clock: int, id: EntryId)
    requires Inv(l, clock) && Timely(l.id, clock, trace) && id in l.outbox && Final(l.outbox[id])
    ensures Undisturbed(l, trace, id) <==> NeverEmitted(l, trace, id)
    ensures OnceOnly(id) ==> NeverEmitted(l, trace, id)
    decreases |trace|
  {
    if trace != [] {
      var k, rest := Step(l, trace[0]), trace[1..];
      FinalUnlessEmitted(l, trace[0], clock, id);
      if OnceOnly(id) { OnceStep(l, trace[0], clock, id); }
      StepPreserves(l, trace[0], clock);
      if k.outbox[id] == l.outbox[id] { UndisturbedExactly(k, rest, trace[0].now, id); }
    }
  }

  lemma {:induction false} UndisturbedLasts(l: Ledger, trace: seq<Tick>, id: EntryId)
    requires Undisturbed(l, trace, id)
    ensures id in Exec(l, trace).outbox && Exec(l, trace).outbox[id] == l.outbox[id]
    decreases |trace|
  {
    if trace != [] { UndisturbedLasts(Step(l, trace[0]), trace[1..], id); }
  }

  /** A done or failed entry is the same after every step exactly as long as no commit emits
      it anew; and only an issue start is ever emitted anew, so any other is what it was at
      the end of every history. */
  lemma SettledEntryIsFinal(l: Ledger, trace: seq<Tick>, clock: int, id: EntryId)
    requires Inv(l, clock) && Timely(l.id, clock, trace) && id in l.outbox && Final(l.outbox[id])
    ensures Undisturbed(l, trace, id) <==> NeverEmitted(l, trace, id)
    ensures OnceOnly(id) ==> NeverEmitted(l, trace, id)
    ensures NeverEmitted(l, trace, id) ==> id in Exec(l, trace).outbox && Exec(l, trace).outbox[id] == l.outbox[id]
  {
    UndisturbedExactly(l, trace, clock, id);
    if Undisturbed(l, trace, id) { UndisturbedLasts(l, trace, id); }
  }

  lemma OnceNotEmitted(l: Ledger, entries: seq<OutboxEntry>, id: EntryId)
    requires AllNovel(l, entries) && id in l.outbox && OnceOnly(id)
    ensures id !in Ids(entries)
  {
  }

  // ---------------------------------------------------------------------- issue starts

  /** The claimant of a live run in time reports its first process start of this claim,
      for a Linear issue that no source revision drives. */
  predicate StartsIssue(l: Ledger, tick: Tick, r: RunId) {
    && tick.event.OnRun? && tick.event.run == r && tick.event.cmd.Renewed? && r in l.runs
    && Starts(l.runs[r], tick.now, tick.event.cmd.renewFingerprint, tick.event.cmd.providerStarted)
  }

  function StartId(r: RunId): EntryId {
    EntryId(IssueStart, r)
  }

  /** Why a heartbeat announces the start of its run's issue. */
  predicate Starts(run: Run, now: int, fingerprint: Option<string>, started: bool) {
    && started && fingerprint.Some?
    && IsLive(run.state) && IsClaimant(run, fingerprint.value) && !RecoveryDeadlineElapsed(run, now)
    && run.queue.value.providerProcessStartedAt.None?
    && run.issue.Some? && run.issue.value.linear && run.sourceRevision.None?
  }

  lemma RenewDecides(now: int, t: Task, run: Run, fingerprint: Option<string>, started: bool)
    requires Held(t, run, now)
    ensures var o := RenewLease(now, t, run, fingerprint, started);
            if Starts(run, now, fingerprint, started)
            then o.Decided? && o.decision.outbox == [NewEntry(IssueStart, run.runId, now)]
                 && o.decision.run.Some? && o.decision.run.value.queue.Some?
                 && o.decision.run.value.queue.value.providerProcessStartedAt == Some(now)
            else o.Decided? ==> o.decision.outbox == []
  {
  }

  /** A heartbeat's transaction is its decision: it settles nothing. */
  lemma RenewCommits(now: int, t: Task, run: Run, fingerprint: Option<string>, started: bool, cleanupId: string)
    ensures DecideOnRun(now, t, run, Renewed(fingerprint, started), cleanupId)
         == RenewLease(now, t, run, fingerprint, started)
  {
  }

  lemma RenewStarts(l: Ledger, now: int, r: RunId, fingerprint: Option<string>, started: bool, cleanupId: string,
                    o: RunId)
    requires Reads(l, r, now)
    ensures StartId(o) in Ids(Emitted(l, Tick(now, OnRun(r, Renewed(fingerprint, started), cleanupId))))
            <==> o == r && Starts(l.runs[r], now, fingerprint, started)
  {
    ReadsHeld(l, r, now);
    RenewCommits(now, l.task.value, l.runs[r], fingerprint, started, cleanupId);
    RenewDecides(now, l.task.value, l.runs[r], fingerprint, started);
    assert forall e: OutboxEntry :: Ids([e]) == {[e][0].entryId};
  }

  lemma NoStart(entries: seq<OutboxEntry>, r: RunId)
    requires Startless(entries)
    ensures StartId(r) !in Ids(entries)
  {
  }

  lemma OtherCommandsStartNothing(l: Ledger, now: int, r: RunId, cmd: RunCommand, cleanupId: string, o: RunId)
    requires Inv(l, now) && !cmd.Renewed?
    ensures StartId(o) !in Ids(Emitted(l, Tick(now, OnRun(r, cmd, cleanupId))))
  {
    var outcome := RunOutcome(l, now, r, cmd, cleanupId);
    if outcome.Decided? {
      ReadsHeld(l, r, now);
      OnRunFrame(now, l.task.value, l.runs[r], cmd, cleanupId, outcome.decision);
      NoStart(outcome.decision.outbox, o);
    }
  }

  lemma RequestsStartNothing(l: Ledger, now: int, input: RequestInput, o: RunId)
    requires Inv(l, now)
    ensures StartId(o) !in Ids(Emitted(l, Tick(now, Requested(input))))
  {
    var outcome := RequestOutcome(l, now, input);
    if outcome.Decided? {
      var given := RequestDecided(l, now, input, outcome.decision);
      NoStart(outcome.decision.outbox, o);
    }
  }

  /** An issue start is emitted exactly by the first process start of a claim. */
  lemma IssueStartEmitted(l: Ledger, tick: Tick, clock: int, r: RunId)
    requires Inv(l, clock) && clock <= tick.now
    ensures StartId(r) in Ids(Emitted(l, tick)) <==> StartsIssue(l, tick, r)
  {
    InvLater(l, clock, tick.now);
    match tick.event {
      case Requested(input) => RequestsStartNothing(l, tick.now, input, r);
      case OnRun(o, cmd, cleanupId) =>
        if cmd.Renewed? && o in l.runs {
          TaskExists(l, o, tick.now);
          RenewStarts(l, tick.now, o, cmd.renewFingerprint, cmd.providerStarted, cleanupId, r);
        } else if !cmd.Renewed? {
          OtherCommandsStartNothing(l, tick.now, o, cmd, cleanupId, r);
        }
      case _ => TaskEmitsNothing(l, tick.now, tick.event);
    }
  }

  /** Within one claim, once its process start was announced it is never announced again:
      only a run released and claimed anew announces another. */
  lemma {:induction false} AnnouncedOncePerClaim(l: Ledger, trace: seq<Tick>, clock: int, r: RunId)
    requires Inv(l, clock) && Timely(l.id, clock, trace) && StaysClaimed(l, trace, r)
    requires l.runs[r].queue.value.providerProcessStartedAt.Some?
    ensures NeverEmitted(l, trace, StartId(r))
    decreases |trace|
  {
    if trace != [] {
      var k, rest := Step(l, trace[0]), trace[1..];
      IssueStartEmitted(l, trace[0], clock, r);
      StepMoves(l, trace[0], clock);
      StepPreserves(l, trace[0], clock);
      assert RunMoves(l.runs[r], k.runs[r]);
      AnnouncedOncePerClaim(k, rest, trace[0].now, r);
    }
  }

  /** The release, the new claim and its first process start. */
  function Restart(at: int, r: RunId, runner: string, token: string, next: string): seq<Tick> {
    [Tick(at, ClaimReleased(r, runner, token, None)), Tick(at, ClaimTaken(r, runner, "subject", next, false)),
     Tick(at, OnRun(r, Renewed(Some(next), true), ""))]
  }

  lemma Reclaimed(l: Ledger, at: int, r: RunId, runner: string, token: string, next: string)
    requires r in l.runs && l.runs[r].runId == r && MayRelease(l.runs[r], runner, token)
    requires l.runs[r].issue.Some? && l.runs[r].issue.value.linear && l.runs[r].sourceRevision.None?
    ensures var k := ClaimRun(ReleaseRun(l, at, r, runner, token, None), at, r, runner, "subject", next, false);
            && r in k.runs && k.outbox == l.outbox && Starts(k.runs[r], at, Some(next), true)
  {
  }

  /** Whatever the entry was, an announced start leaves it fresh. */
  lemma StartResets(l: Ledger, at: int, r: RunId, token: string)
    requires Inv(l, at) && r in l.runs && Starts(l.runs[r], at, Some(token), true)
    ensures var k := Step(l, Tick(at, OnRun(r, Renewed(Some(token), true), "")));
            StartId(r) in k.outbox && FreshEntry(k.outbox[StartId(r)])
  {
    var tick := Tick(at, OnRun(r, Renewed(Some(token), true), ""));
    IssueStartEmitted(l, tick, at, r);
    CommitMovesEntry(l, tick, at, StartId(r));
  }

  function HandedOver(l: Ledger, at: int, r: RunId, runner: string, token: string, next: string): Ledger {
    ClaimRun(ReleaseRun(l, at, r, runner, token, None), at, r, runner, "subject", next, false)
  }

  lemma ReleaseIsGood(l: Ledger, clock: int, at: int, r: RunId, runner: string, token: string)
    requires Inv(l, clock) && clock <= at
    ensures Inv(ReleaseRun(l, at, r, runner, token, None), at)
  {
    InvLater(l, clock, at);
    var kind := ReleaseKind(l, at, r, runner, token, None);
    KindPreserves(l, ReleaseRun(l, at, r, runner, token, None), kind, at);
  }

  lemma ClaimIsGood(l: Ledger, at: int, r: RunId, runner: string, token: string)
    requires Inv(l, at)
    ensures Inv(ClaimRun(l, at, r, runner, "subject", token, false), at)
  {
    var kind := ClaimKind(l, at, r, runner, "subject", token, false);
    KindPreserves(l, ClaimRun(l, at, r, runner, "subject", token, false), kind, at);
  }

  lemma RestartRuns(l: Ledger, at: int, r: RunId, runner: string, token: string, next: string)
    ensures Exec(l, Restart(at, r, runner, token, next))
         == Step(HandedOver(l, at, r, runner, token, next), Tick(at, OnRun(r, Renewed(Some(next), true), "")))
  {
    var trace := Restart(at, r, runner, token, next);
    var k := ReleaseRun(l, at, r, runner, token, None);
    assert trace[1..][1..] == trace[2..] && trace[2..][1..] == [];
    assert Exec(k, trace[1..]) == Exec(Step(k, trace[1]), trace[2..]);
    assert Exec(Step(k, trace[1]), trace[2..]) == Exec(Step(Step(k, trace[1]), trace[2]), []);
  }

  lemma RestartIsTimely(id: TaskId, clock: int, at: int, r: RunId, runner: string, token: string, next: string)
    requires clock <= at
    ensures Timely(id, clock, Restart(at, r, runner, token, next))
  {
    var trace := Restart(at, r, runner, token, next);
    assert Timely(id, at, []);
    assert trace[1..][1..] == trace[2..] && trace[2..][1..] == [];
    assert Timely(id, at, trace[2..]);
    assert Timely(id, at, trace[1..]);
  }

  /** An instance of the exception: a claim that announced its process start is handed
      back and taken again; the new start resets the entry, delivered as it was. */
  lemma RestartResetsEntry(l: Ledger, clock: int, at: int, r: RunId, runner: string, token: string, next: string)
    requires Inv(l, clock) && clock <= at && r in l.runs && MayRelease(l.runs[r], runner, token)
    requires l.runs[r].issue.Some? && l.runs[r].issue.value.linear && l.runs[r].sourceRevision.None?
    requires StartId(r) in l.outbox && Final(l.outbox[StartId(r)])
    ensures Timely(l.id, clock, Restart(at, r, runner, token, next))
    ensures var k := Exec(l, Restart(at, r, runner, token, next));
            StartId(r) in k.outbox && FreshEntry(k.outbox[StartId(r)])
  {
    var k := HandedOver(l, at, r, runner, token, next);
    RestartIsTimely(l.id, clock, at, r, runner, token, next);
    NamedRun(l, clock, r);
    Reclaimed(l, at, r, runner, token, next);
    ReleaseIsGood(l, clock, at, r, runner, token);
    ClaimIsGood(ReleaseRun(l, at, r, runner, token, None), at, r, runner, next);
    StartResets(k, at, r, next);
    RestartRuns(l, at, r, runner, token, next);
  }

  lemma NamedRun(l: Ledger, clock: int, r: RunId)
    requires Inv(l, clock) && r in l.runs
    ensures l.runs[r].runId == r
  {
    assert RunLocked(l, r);
  }
}
