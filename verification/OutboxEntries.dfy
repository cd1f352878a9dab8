/** One outbox entry: what leasing, settling and waking it write, and when it may be taken. */
module OutboxEntries {
  import opened Model
  import opened Outbox
  import opened Ledgers
  import opened Machine
  import opened Invariants

  /** The lease on the entry is this claim's. */
  predicate LeasedBy(entry: OutboxEntry, claimId: string) {
    entry.state.Leased? && entry.state.claimId == claimId
  }

  /** A value given replaces the old one; omitted, the old one stays, or goes if forgotten. */
  ghost predicate Follows<T(!new)>(given: Option<T>, before: Option<T>, forgotten: bool, after: Option<T>) {
    after == if given.Some? then given else if forgotten then None else before
  }

  /** The entry is in the state it was told, at the instant it was told; its history of
      failures is what it was told, else what it was, unless it recovered; its retry time is
      what it was told, else what it was; the rest stands. */
  ghost predicate AsTold(before: OutboxEntry, after: OutboxEntry, s: Settlement) {
    && (after.state.EntryPending? <==> s.state.ToPending?)
    && (after.state.Done? <==> s.state.ToDone?) && (after.state.Failed? <==> s.state.ToFailed?)
    && Follows(s.firstFailedAt, before.firstFailedAt, s.recovered, after.firstFailedAt)
    && Follows(s.deliveryFailures, before.deliveryFailures, s.recovered, after.deliveryFailures)
    && Follows(s.nextAttemptAt, before.nextAttemptAt, false, after.nextAttemptAt)
    && after.updatedAt == s.now && after.entryId == before.entryId && after.attempts == before.attempts
    && after.createdAt == before.createdAt
  }

  /** An entry is settled exactly by the claim that leases it, and then as it was told. */
  lemma SettledAsTold(entry: OutboxEntry, s: Settlement)
    ensures var after := SettleOutboxEntry(entry, s);
            && (after.Some? <==> LeasedBy(entry, s.claimId))
            && (after.Some? ==> AsTold(entry, after.value, s))
  {
  }

  /** In the ledger: the entry named is settled so, and everything else stands. */
  lemma SettlementWrites(l: Ledger, now: int, s: Settlement)
    ensures var k := Step(l, Tick(now, EntrySettled(s)));
            if s.entryId in l.outbox && LeasedBy(l.outbox[s.entryId], s.claimId)
            then && s.entryId in k.outbox && AsTold(l.outbox[s.entryId], k.outbox[s.entryId], s)
                 && k == l.(outbox := l.outbox[s.entryId := k.outbox[s.entryId]])
            else k == l
  {
    if s.entryId in l.outbox { SettledAsTold(l.outbox[s.entryId], s); }
  }

  /** Free to be taken: leased until no later than now, or pending and not put off past now. */
  predicate Takeable(entry: OutboxEntry, now: int) {
    match entry.state
    case Leased(_, until) => until <= now
    case EntryPending => entry.nextAttemptAt.None? || entry.nextAttemptAt.value <= now
    case _ => false
  }

  /** An entry is leased exactly while it is free, once more than before, to that claim; nobody
      else may take it until the lease runs out, and from then on anybody may. */
  lemma LeaseRunsOut(l: Ledger, now: int, id: EntryId, claimId: string, until: int, at: int)
    requires id in l.outbox
    ensures var k := Step(l, Tick(now, EntryLeased(id, claimId, until)));
            if !Takeable(l.outbox[id], now) then k == l
            else && id in k.outbox && LeasedBy(k.outbox[id], claimId) && (Takeable(k.outbox[id], at) <==> until <= at)
                 && k.outbox[id] == l.outbox[id].(state := k.outbox[id].state, attempts := l.outbox[id].attempts + 1,
                                                  updatedAt := now)
                 && k == l.(outbox := l.outbox[id := k.outbox[id]])
  {
  }

  /** A wake makes a pending entry that was put off due at that instant, and leaves any other
      entry as it is. */
  lemma WakeMakesDue(l: Ledger, now: int, id: EntryId)
    requires id in l.outbox
    ensures var k := Step(l, Tick(now, EntryWoken(id)));
            if l.outbox[id].state.EntryPending? && !Takeable(l.outbox[id], now)
            then id in k.outbox && Takeable(k.outbox[id], now)
                 && k.outbox[id] == l.outbox[id].(nextAttemptAt := Some(now), updatedAt := now)
                 && k == l.(outbox := l.outbox[id := k.outbox[id]])
            else k == l
  {
  }

  /** A drain takes exactly what is free and, if pending, not set aside, while it has room. */
  lemma EligibleIsTakeable(entry: OutboxEntry, now: int)
    ensures Takeable(entry, now) <==> EntryExpired(entry, now) || Due(entry, now)
  {
  }

  /** A new entry was handed to no one and is free at once. */
  lemma NewEntryIsFree(effect: Effect, run: RunId, now: int, at: int)
    ensures var entry := NewEntry(effect, run, now);
            && entry.entryId == EntryId(effect, run) && FreshEntry(entry) && Takeable(entry, at)
            && entry.createdAt == now && entry.firstFailedAt.None? && entry.deliveryFailures.None?
  {
  }
}
