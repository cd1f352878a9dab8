/** The claim of a queued run: whom it belongs to, over the whole time it stands, and what
    its executor's heartbeats, observations and exit write. */
module Claims {
  import opened Model
  import opened Decide
  import opened Orchestrator
  import opened Ledgers
  import opened Invariants
  import opened Primitives
  import opened TouchSteps
  import opened CommandPlans
  import opened Machine
  import opened History

  // ------------------------------------------------------------------------- ownership

  /** The claim answers to one subject, one runner and one token. */
  ghost predicate BelongsTo(run: Run, subject: string, runner: string, token: string) {
    && (forall claimant :: OwnsClaim(run, claimant) <==> claimant == Claimant(subject, runner, Some(token)))
    && (forall fingerprint :: IsClaimant(run, fingerprint) <==> fingerprint == token)
  }

  /** A claim is its executor's alone: nobody else may act under it or hand it back. It
      waits for placement exactly when the executor promised to report one, and keeps
      nothing of the queue state before it. */
  lemma ClaimIsTheExecutors(run: Run, now: int, runner: string, subject: string, token: string, aware: bool)
    requires IsQueueAdmissionCandidate(run, now)
    ensures var claimed := ClaimQueuedRun(run, now, runner, subject, token, aware);
            && BelongsTo(claimed, subject, runner, token)
            && (forall name, hash :: MayRelease(claimed, name, hash) <==> name == runner && hash == token)
            && claimed.queue.value.startupPlacement
               == (if aware then Some(StartupPlacement(false, now, None)) else None)
            && claimed.queue.value.claimedAt == Some(now) && claimed.queue.value.firstHeartbeatAt.None?
            && claimed.queue.value.providerProcessStartedAt.None? && claimed.queue.value.placementObservedAt.None?
            && claimed.queue.value.deferredUntil.None?
            && claimed == run.(queue := claimed.queue, leaseExpiresAt := now + 120 * MINUTES, updatedAt := now)
  {
  }

  /** The run as a claim leaves it, in the ledger: exactly a candidate is claimed. */
  lemma ClaimWrites(l: Ledger, now: int, r: RunId, runner: string, subject: string, token: string, aware: bool)
    requires r in l.runs
    ensures var k := Step(l, Tick(now, ClaimTaken(r, runner, subject, token, aware)));
            if IsQueueAdmissionCandidate(l.runs[r], now)
            then r in k.runs && (l.runs[r].runId == r ==> BelongsTo(k.runs[r], subject, runner, token))
            else k == l
  {
  }

  /** For as long as the claim stands, whatever else happens, it stays that executor's. */
  lemma ClaimStaysTheExecutors(l: Ledger, clock: int, now: int, r: RunId, runner: string, subject: string,
                               token: string, aware: bool, trace: seq<Tick>)
    requires Inv(l, clock) && clock <= now && r in l.runs && IsQueueAdmissionCandidate(l.runs[r], now)
    requires var k := Step(l, Tick(now, ClaimTaken(r, runner, subject, token, aware)));
             Timely(l.id, now, trace) && StaysClaimed(k, trace, r)
    ensures var m := Exec(Step(l, Tick(now, ClaimTaken(r, runner, subject, token, aware))), trace);
            r in m.runs && BelongsTo(m.runs[r], subject, runner, token)
  {
    var tick := Tick(now, ClaimTaken(r, runner, subject, token, aware));
    assert RunLocked(l, r);
    ClaimWrites(l, now, r, runner, subject, token, aware);
    StepPreserves(l, tick, clock);
    ClaimKeepsItsRules(Step(l, tick), trace, now, r);
    SameOwner(Step(l, tick).runs[r], Exec(Step(l, tick), trace).runs[r], subject, runner, token);
  }

  lemma SameOwner(a: Run, b: Run, subject: string, runner: string, token: string)
    requires IsClaimed(a) && IsClaimed(b) && SameClaim(a.queue.value, b.queue.value)
    requires BelongsTo(a, subject, runner, token)
    ensures BelongsTo(b, subject, runner, token)
  {
    assert OwnsClaim(a, Claimant(subject, runner, Some(token)));
  }

  /** Open to claims from now on, if live; in all else the run it was. */
  ghost predicate Opened(before: Run, after: Run, now: int) {
    && after == before.(queue := after.queue, updatedAt := now)
    && forall at :: IsQueueAdmissionCandidate(after, at) <==> IsLive(before.state)
  }

  lemma EmptyQueueOpens(run: Run, now: int)
    requires GoodRun(run, now) && run.queue.None?
    ensures Opened(run, run.(queue := Some(EmptyQueue(None)), updatedAt := now), now)
  {
    assert GoodOperation(run);
  }

  /** A run that was never queued is open to claims at once; any other is left alone. */
  lemma EnqueuedIsOpen(l: Ledger, now: int, r: RunId)
    requires Inv(l, now) && r in l.runs
    ensures var k := Step(l, Tick(now, Enqueued(r)));
            if l.runs[r].queue.Some? then k == l
            else r in k.runs && Opened(l.runs[r], k.runs[r], now) && k == l.(runs := l.runs[r := k.runs[r]])
  {
    assert RunLocked(l, r);
    if l.runs[r].queue.None? { EmptyQueueOpens(l.runs[r], now); }
  }

  // ------------------------------------------------------------------------ heartbeats

  /** The claim's start deadline has passed and no heartbeat came before it. */
  predicate MissedStart(run: Run, now: int) {
    && run.queue.Some? && run.queue.value.state.Claimed? && run.queue.value.firstHeartbeatAt.None?
    && run.queue.value.startDeadlineAt.Some? && run.queue.value.startDeadlineAt.value <= now
  }

  /** A heartbeat, with a token or without, sets the lease, a claim's first heartbeat and,
      when it is the claimant's, its first process start: nothing else of the run, and
      nothing of the task. Without a token it is late only past the start deadline. */
  lemma HeartbeatWrites(now: int, t: Task, run: Run, fingerprint: Option<string>, started: bool, cleanupId: string)
    requires Held(t, run, now)
    ensures var o := DecideOnRun(now, t, run, Renewed(fingerprint, started), cleanupId);
            && (fingerprint.None? ==> (o.Decided? <==> IsLive(run.state) && !MissedStart(run, now)))
            && (fingerprint.Some? ==>
                  (o.Decided? <==> IsLive(run.state) && IsClaimant(run, fingerprint.value)
                                   && !RecoveryDeadlineElapsed(run, now)))
            && (o.Decided? ==>
                  && o.decision.task == t && o.decision.additionalRun.None? && o.decision.run.Some?
                  && var after := o.decision.run.value;
                     && after == run.(queue := after.queue, leaseExpiresAt := now + 120 * MINUTES, updatedAt := now)
                     && (!IsClaimed(run) ==> after.queue == run.queue)
                     && (IsClaimed(run) ==> after.queue.Some? && HeardBy(run.queue.value, after.queue.value, now)
                                            && StartedBy(run.queue.value, after.queue.value, now,
                                                         started && fingerprint.Some?)))
  {
  }

  /** The first heartbeat is recorded once, and nothing but it and the process start moves. */
  ghost predicate HeardBy(a: RunQueue, b: RunQueue, now: int) {
    && b.firstHeartbeatAt == (if a.firstHeartbeatAt.None? then Some(now) else a.firstHeartbeatAt)
    && b == a.(firstHeartbeatAt := b.firstHeartbeatAt, providerProcessStartedAt := b.providerProcessStartedAt)
  }

  /** The process start is the instant of the first heartbeat that reports it. */
  ghost predicate StartedBy(a: RunQueue, b: RunQueue, now: int, reports: bool) {
    b.providerProcessStartedAt
    == if reports && a.providerProcessStartedAt.None? then Some(now) else a.providerProcessStartedAt
  }

  /** Confirming the dispatch of a pending run starts it, with one event and a fresh lease;
      of a running run it changes nothing. */
  lemma ConfirmationStarts(now: int, t: Task, run: Run, cleanupId: string)
    requires Held(t, run, now) && IsLive(run.state)
    ensures var o := DecideOnRun(now, t, run, DispatchConfirmed, cleanupId);
            && o.Decided? && o.decision.outbox == [] && o.decision.additionalRun.None? && o.decision.run.Some?
            && var after := o.decision.run.value;
               if run.state.Running? then after == run && o.decision.task == t
               else && after.state.Running? && o.decision.task == t.(updatedAt := now)
                    && after == run.(state := Running, leaseExpiresAt := now + 120 * MINUTES, updatedAt := now,
                                     events := run.events + [RunEvent(now, Running, ByDispatch, None)])
  {
  }

  // ---------------------------------------------------------------------- observations

  /** What a startup observation leaves: a claim that was placed, or heard from, as it was;
      any other with the observation on record, its Job named and its deadline moved. */
  lemma StartupRecorded(now: int, t: Task, run: Run, claimant: Claimant, jobUid: string, observedAt: int,
                        placed: bool, cleanupId: string)
    requires Held(t, run, now)
    requires DecideOnRun(now, t, run, StartupObserved(claimant, jobUid, observedAt, placed), cleanupId).Decided?
    ensures var d := DecideOnRun(now, t, run, StartupObserved(claimant, jobUid, observedAt, placed),
                                 cleanupId).decision;
            && d.task == t && d.outbox == [] && d.additionalRun.None? && d.run.Some?
            && if run.queue.value.firstHeartbeatAt.Some? || run.queue.value.startupPlacement.value.placed
               then d.run.value == run
               else && d.run.value == run.(queue := d.run.value.queue, leaseExpiresAt := now + 120 * MINUTES,
                                           updatedAt := now)
                    && var after := d.run.value.queue.value;
                       && after == run.queue.value.(startupPlacement := after.startupPlacement,
                                                    startDeadlineAt := after.startDeadlineAt)
                       && after.startupPlacement == Some(StartupPlacement(placed, observedAt, Some(jobUid)))
  {
  }

  /** A placement report leaves its own instant on record, and nothing else. */
  lemma PlacementRecorded(now: int, t: Task, run: Run, claimant: Claimant, placedAt: int, cleanupId: string)
    requires Held(t, run, now)
    requires DecideOnRun(now, t, run, PlacementObserved(claimant, placedAt), cleanupId).Decided?
    ensures var d := DecideOnRun(now, t, run, PlacementObserved(claimant, placedAt), cleanupId).decision;
            && d.task == t && d.outbox == [] && d.additionalRun.None? && d.run.Some? && d.run.value.queue.Some?
            && d.run.value == run.(queue := d.run.value.queue)
            && d.run.value.queue.value.placementObservedAt == Some(placedAt)
            && d.run.value.queue.value == run.queue.value.(placementObservedAt := Some(placedAt))
  {
  }

  // ----------------------------------------------------------------------------- exits

  /** The exit of a settled run's executor is taken exactly from the subject and runner that
      claimed it, with its own token or none, unless its pipeline is Codex: then only the
      cleanup retires the claim. */
  lemma SettledExitAccepted(now: int, t: Task, run: Run, claimant: Claimant, cleanupId: string)
    requires Held(t, run, now) && !IsLive(run.state)
    ensures DecideOnRun(now, t, run, WorkerExited(claimant), cleanupId).Decided? <==>
              && IsClaimed(run) && !run.pipeline.Codex?
              && run.queue.value.claimedBySubject == Some(claimant.subject)
              && run.queue.value.claimedBy == Some(claimant.runner)
              && (claimant.claimFingerprint.Some? ==> run.queue.value.tokenHash == claimant.claimFingerprint)
  {
    assert GoodOperation(run);
  }

  /** A run lost to its deadline stays claimed, so that its executor's exit can still retire it. */
  lemma ExpiryKeepsClaim(now: int, t: Task, run: Run, cleanupId: string)
    requires Held(t, run, now) && DecideOnRun(now, t, run, LeaseExpired, cleanupId).Decided?
    ensures var d := DecideOnRun(now, t, run, LeaseExpired, cleanupId).decision;
            && d.run.Some? && d.run.value.state.Lost? && d.run.value.queue == run.queue
            && d.run.value == run.(state := Lost, events := d.run.value.events, updatedAt := now,
                                   credentialOperation := d.run.value.credentialOperation)
  {
  }
}
