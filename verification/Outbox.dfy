/** Outbox leases: `settleOutboxEntry`, `wakeOutboxEntry` and the claim order of `model.ts`. */
module Outbox {
  import opened Model

  datatype SettledAs = ToPending | ToDone | ToFailed

  datatype Settlement = Settlement(
    entryId: EntryId,
    claimId: string,
    state: SettledAs,
    now: int,
    firstFailedAt: Option<int>,
    nextAttemptAt: Option<int>,
    deliveryFailures: Option<nat>,
    recovered: bool)

  /** The entry due at `now`, if it is pending with a later retry time. */
  function WakeOutboxEntry(entry: OutboxEntry, now: int): Option<OutboxEntry> {
    if !entry.state.EntryPending? || entry.nextAttemptAt.None? || entry.nextAttemptAt.value <= now then None
    else Some(entry.(nextAttemptAt := Some(now), updatedAt := now))
  }

  predicate OwnsLease(entry: OutboxEntry, claimId: string) {
    entry.state.Leased? && entry.state.claimId == claimId
  }

  function Or<T>(given: Option<T>, kept: Option<T>): Option<T> {
    if given.Some? then given else kept
  }

  /** The entry out of its lease and in the state given, for the claim that holds it; `None`
      for any other. */
  function SettleOutboxEntry(entry: OutboxEntry, input: Settlement): Option<OutboxEntry> {
    if !OwnsLease(entry, input.claimId) then None
    else
      Some(entry.(
        state := match input.state case ToPending => EntryPending case ToDone => Done case ToFailed => Failed,
        updatedAt := input.now,
        firstFailedAt := Or(input.firstFailedAt, if input.recovered then None else entry.firstFailedAt),
        nextAttemptAt := Or(input.nextAttemptAt, entry.nextAttemptAt),
        deliveryFailures := Or(input.deliveryFailures, if input.recovered then None else entry.deliveryFailures)))
  }

  predicate EntryExpired(entry: OutboxEntry, now: int) {
    entry.state.Leased? && entry.state.leaseExpiresAt <= now
  }

  predicate Due(entry: OutboxEntry, now: int) {
    entry.state.EntryPending? && (entry.nextAttemptAt.Some? ==> entry.nextAttemptAt.value <= now)
  }

  function LeaseEntry(entry: OutboxEntry, claimId: string, leaseExpiresAt: int, now: int): OutboxEntry {
    entry.(state := Leased(claimId, leaseExpiresAt), attempts := entry.attempts + 1, updatedAt := now)
  }

  /** Every effect of a run is emitted once, but for its issue start: a released and
      reclaimed run announces it again. */
  predicate OnceOnly(id: EntryId) {
    !id.effect.IssueStart?
  }

  /** An entry as a commit writes it: pending, and handed out to no one. */
  predicate FreshEntry(entry: OutboxEntry) {
    entry.state.EntryPending? && entry.attempts == 0
  }
}
