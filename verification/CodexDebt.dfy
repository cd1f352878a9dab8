/** A claimed Codex run never settles without its credential debt on record. */
module CodexDebt {
  import opened Model
  import opened Decide
  import opened Credential
  import opened Orchestrator
  import opened Ledgers
  import opened Invariants
  import opened Primitives
  import opened TouchSteps
  import opened CommandPlans
  import opened RequestPlans
  import opened Machine
  import opened History
  import opened Frames
  import opened CredentialFence

  /** Cleanup authority over the claim the run was executed under. */
  ghost predicate OwesCleanup(before: Run, after: Run) {
    && after.credentialOperation.Some? && IsClaimed(before)
    && after.credentialOperation.value.kind.Cleanup?
    && before.queue.value.tokenHash == Some(after.credentialOperation.value.claimFingerprint)
  }

  /** The finish proves the lease retired at the sequence the operation has reached. */
  ghost predicate ProvesRetirement(run: Run, cmd: RunCommand) {
    && IsFinish(cmd) && run.credentialOperation.Some?
    && run.credentialOperation.value.mutation.None?
    && (if cmd.OperationFinished? then cmd.leaseRetiredAtSequence else cmd.change.leaseRetiredAtSequence)
         == Some(run.credentialOperation.value.mutationSequence)
  }

  // ---------------------------------------------------------------------- one command

  lemma CleanupReserved(now: int, t: Task, run: Run, d: Decision, cleanupId: string)
    requires Held(t, run, now) && IsLive(run.state) && IsClaimed(run) && UsesCodexCredentials(run)
    requires d.run.Some? && !IsLive(d.run.value.state) && d.run.value.credentialOperation.None?
    ensures var o := WithCleanup(run, Decided(d), cleanupId);
            o.Decided? ==> o.decision.run.Some? && OwesCleanup(run, o.decision.run.value)
  {
  }

  lemma ChangeSettles(now: int, t: Task, run: Run, id: string, fingerprint: string, change: Change, d: Decision)
    requires ChangeCredentialOperation(now, t, run, id, fingerprint, change) == Decided(d)
    requires d.run.Some? && d.run.value.state != run.state
    ensures change.Finish? && run.credentialOperation.Some? && run.credentialOperation.value.mutation.None?
    ensures change.leaseRetiredAtSequence == Some(run.credentialOperation.value.mutationSequence)
  {
  }

  lemma FinishSettles(now: int, t: Task, run: Run, cmd: RunCommand, d: Decision)
    requires cmd.OperationFinished? && DecideFinish(now, t, run, cmd) == Decided(d)
    requires d.run.Some? && d.run.value.state != run.state
    ensures ProvesRetirement(run, cmd)
  {
    var change := Finish(cmd.restored, cmd.leaseRetiredAtSequence);
    var changed := ChangeCredentialOperation(now, t, run, cmd.finishId, cmd.finishFingerprint, change).decision;
    if cmd.finishAuthority.Some? && run.credentialPendingResult.Some? && changed.run.Some? {
      FallbackFrame(now, changed, cmd.finishAuthority.value.authorized, cmd.finishAuthority.value.available, d);
    }
    ChangeSettles(now, t, run, cmd.finishId, cmd.finishFingerprint, change, changed);
  }

  /** Commands that reserve no cleanup settle a claimed run only by proven finish. */
  lemma UnreservedSettles(now: int, t: Task, run: Run, cmd: RunCommand, d: Decision)
    requires DecideCommand(now, t, run, cmd) == Decided(d) && !ReservesCleanup(cmd) && IsClaimed(run)
    requires d.run.Some? && d.run.value.state != run.state
    ensures ProvesRetirement(run, cmd)
  {
    match cmd {
      case OperationChanged(id, fingerprint, change) => ChangeSettles(now, t, run, id, fingerprint, change, d);
      case OperationFinished(_, _, _, _, _) => FinishSettles(now, t, run, cmd, d);
      case _ =>
    }
  }

  lemma CommandSettles(l: Ledger, now: int, r: RunId, cmd: RunCommand, cleanupId: string, d: Decision)
    requires Reads(l, r, now) && IsLive(l.runs[r].state) && IsClaimed(l.runs[r]) && UsesCodexCredentials(l.runs[r])
    requires RunOutcome(l, now, r, cmd, cleanupId) == Decided(d)
    requires d.run.Some? && !IsLive(d.run.value.state)
    ensures OwesCleanup(l.runs[r], d.run.value) || ProvesRetirement(l.runs[r], cmd)
  {
    ReadsHeld(l, r, now);
    var e := DecideCommand(now, l.task.value, l.runs[r], cmd).decision;
    if ReservesCleanup(cmd) {
      ReservedSettles(l, now, r, cmd, e);
      CleanupReserved(now, l.task.value, l.runs[r], e, cleanupId);
    } else {
      UnreservedSettles(now, l.task.value, l.runs[r], cmd, d);
    }
  }

  lemma ReservedSettles(l: Ledger, now: int, r: RunId, cmd: RunCommand, e: Decision)
    requires Reads(l, r, now) && IsLive(l.runs[r].state) && ReservesCleanup(cmd)
    requires DecideCommand(now, l.task.value, l.runs[r], cmd) == Decided(e)
    ensures e.run.Some? && !IsLive(e.run.value.state) ==> e.run.value.credentialOperation.None?
  {
    ReadsHeld(l, r, now);
    CommandFrame(now, l.task.value, l.runs[r], cmd, e);
    var plan := CommandPlan(l, r, now, cmd, e);
  }

  /** Reserving the cleanup never turns an accepted transition into a refusal. */
  lemma CleanupNeverRefused(l: Ledger, now: int, r: RunId, cmd: RunCommand, cleanupId: string, d: Decision)
    requires Reads(l, r, now) && DecideCommand(now, l.task.value, l.runs[r], cmd) == Decided(d)
    ensures RunOutcome(l, now, r, cmd, cleanupId).Decided?
  {
    if ReservesCleanup(cmd) {
      var plan := CommandPlan(l, r, now, cmd, d);
      plan := CleanupPlan(l, r, now, d, plan, cleanupId);
    }
  }

  // -------------------------------------------------------------------------- one step

  lemma CommandDebt(l: Ledger, now: int, r: RunId, cmd: RunCommand, cleanupId: string)
    requires Inv(l, now) && r in l.runs
    requires IsLive(l.runs[r].state) && IsClaimed(l.runs[r]) && UsesCodexCredentials(l.runs[r])
    ensures var k := TransactRun(l, now, r, cmd, cleanupId);
            r in k.runs
            && (IsLive(k.runs[r].state) || OwesCleanup(l.runs[r], k.runs[r]) || ProvesRetirement(l.runs[r], cmd))
  {
    var o := RunOutcome(l, now, r, cmd, cleanupId);
    if o.Decided? {
      var plan := RunOutcomePlan(l, now, r, cmd, cleanupId);
      PlanWrites(l, r, o.decision, plan, now);
      if o.decision.run.Some? && !IsLive(o.decision.run.value.state) {
        CommandSettles(l, now, r, cmd, cleanupId, o.decision);
      }
    }
  }

  /** A run still claimed and alive, an owed cleanup, or a proven retirement. */
  ghost predicate Accounted(before: Run, after: Run, event: Event) {
    || IsLive(after.state)
    || OwesCleanup(before, after)
    || (FinishesOn(event, before.runId) && ProvesRetirement(before, event.cmd))
  }

  lemma AnyCommandDebt(l: Ledger, now: int, o: RunId, cmd: RunCommand, cleanupId: string, r: RunId)
    requires Inv(l, now) && r in l.runs
    requires IsLive(l.runs[r].state) && IsClaimed(l.runs[r]) && UsesCodexCredentials(l.runs[r])
    ensures var k := TransactRun(l, now, o, cmd, cleanupId);
            r in k.runs && Accounted(l.runs[r], k.runs[r], OnRun(o, cmd, cleanupId))
  {
    assert RunLocked(l, r);
    if o == r {
      CommandDebt(l, now, r, cmd, cleanupId);
    } else {
      CommandSpares(l, now, o, cmd, cleanupId, r);
    }
  }

  lemma RequestDebt(l: Ledger, now: int, input: RequestInput, r: RunId)
    requires Inv(l, now) && GoodInput(input) && input.taskId == l.id && r in l.runs
    requires IsLive(l.runs[r].state) && IsClaimed(l.runs[r])
    ensures r in TransactRequest(l, now, input).runs
            && Accounted(l.runs[r], TransactRequest(l, now, input).runs[r], Requested(input))
  {
    RequestSpares(l, now, input, r);
  }

  /** Whatever step takes a claimed Codex run, or a claimed Goose run on Codex credentials,
      from live to settled leaves a cleanup operation on its claim, or is a finish that
      proved the lease retired. */
  lemma NoOrphanedDebt(l: Ledger, tick: Tick, clock: int, r: RunId)
    requires Inv(l, clock) && clock <= tick.now && Admissible(l.id, tick.event) && r in l.runs
    requires IsLive(l.runs[r].state) && IsClaimed(l.runs[r])
    requires l.runs[r].pipeline == Codex
             || (l.runs[r].pipeline == Goose && l.runs[r].params.providerAuth == Some(Codex))
    ensures r in Step(l, tick).runs && Accounted(l.runs[r], Step(l, tick).runs[r], tick.event)
  {
    InvLater(l, clock, tick.now);
    assert GoodRun(l.runs[r], tick.now);
    var event := tick.event;
    if event.Requested? {
      RequestDebt(l, tick.now, event.input, r);
    } else if event.OnRun? {
      AnyCommandDebt(l, tick.now, event.run, event.cmd, event.cleanupId, r);
    } else {
      UpkeepSpares(l, tick.now, event, r);
    }
  }

  // ----------------------------------------------------------------------- one recipe

  /** The cleanup operation a settlement leaves, before anything happened under it. */
  function OwedCleanup(id: string, token: string, now: int): CredentialOperation {
    CredentialOperation(id, Cleanup, token, now, 0, now + 5 * MINUTES, None)
  }

  /** A claimed Goose run on Codex credentials that misses its deadline is settled with a
      cleanup under its token. Its claim stands; its executor's exit is then remembered, and
      the finish of the cleanup retires the claim. */
  lemma RecipeDebtRetires(now: int, later: int, last: int, t: Task, run: Run, cleanupId: string, exitId: string,
                          subject: string, runner: string, token: string)
    requires Held(t, run, now) && IsLive(run.state) && IsClaimed(run) && RecoveryDeadlineElapsed(run, now)
    requires run.pipeline == Goose && run.params.providerAuth == Some(Codex) && run.credentialOperation.None?
    requires run.queue.value.claimedBySubject == Some(subject) && run.queue.value.claimedBy == Some(runner)
             && run.queue.value.tokenHash == Some(token)
    ensures var o := DecideOnRun(now, t, run, LeaseExpired, cleanupId);
            && o.Decided? && o.decision.run.Some?
            && var lost := o.decision.run.value;
            && lost.state.Lost? && IsClaimed(lost)
            && lost.credentialOperation == Some(OwedCleanup(cleanupId, token, now))
            && var exit := WorkerExited(Claimant(subject, runner, None));
            && var e := DecideOnRun(later, o.decision.task, lost, exit, exitId);
            && e.Decided? && e.decision.run.Some?
            && var left := e.decision.run.value;
            && left.credentialOperation == lost.credentialOperation && IsClaimed(left)
            && var f := DecideOnRun(last, e.decision.task, left,
                                    OperationFinished(cleanupId, token, false, Some(0), None), exitId);
            && f.Decided? && f.decision.run.Some?
            && f.decision.run.value.credentialOperation.None? && f.decision.run.value.queue.value.state.Retired?
  {
    var o := DecideOnRun(now, t, run, LeaseExpired, cleanupId);
    var lost := o.decision.run.value;
    RecipeExpires(now, t, run, cleanupId, token);
    RecipeLeaves(later, o.decision.task, lost, exitId, subject, runner);
    var e := DecideOnRun(later, o.decision.task, lost, WorkerExited(Claimant(subject, runner, None)), exitId);
    RecipeFinishes(last, e.decision.task, e.decision.run.value, cleanupId, token, exitId);
  }

  lemma RecipeExpires(now: int, t: Task, run: Run, cleanupId: string, token: string)
    requires Held(t, run, now) && IsLive(run.state) && IsClaimed(run) && RecoveryDeadlineElapsed(run, now)
    requires run.pipeline == Goose && run.params.providerAuth == Some(Codex) && run.credentialOperation.None?
    requires run.queue.value.tokenHash == Some(token)
    ensures var o := DecideOnRun(now, t, run, LeaseExpired, cleanupId);
            && o.Decided? && o.decision.run.Some? && o.decision.run.value.state.Lost?
            && o.decision.run.value
               == run.(state := Lost, events := o.decision.run.value.events, updatedAt := now,
                       credentialOperation := Some(OwedCleanup(cleanupId, token, now)))
  {
  }

  lemma RecipeLeaves(later: int, t: Task, lost: Run, exitId: string, subject: string, runner: string)
    requires lost.state.Lost? && IsClaimed(lost) && lost.credentialOperation.Some?
    requires lost.pipeline == Goose && lost.params.providerAuth == Some(Codex)
    requires lost.queue.value.claimedBySubject == Some(subject) && lost.queue.value.claimedBy == Some(runner)
    ensures var e := DecideOnRun(later, t, lost, WorkerExited(Claimant(subject, runner, None)), exitId);
            && e.Decided? && e.decision.run.Some?
            && var left := e.decision.run.value;
            && left == lost.(events := left.events) && left.events != []
            && left.events[|left.events| - 1].actor.ByExecutor?
  {
  }

  lemma RecipeFinishes(last: int, t: Task, left: Run, cleanupId: string, token: string, exitId: string)
    requires left.state.Lost? && IsClaimed(left) && left.pipeline == Goose && left.credentialPendingResult.None?
    requires left.queue.value.tokenHash == Some(token) && left.credentialOperation.Some?
    requires left.credentialOperation.value == OwedCleanup(cleanupId, token, left.credentialOperation.value.startedAt)
    requires left.events != [] && left.events[|left.events| - 1].actor.ByExecutor?
    ensures var f := DecideOnRun(last, t, left, OperationFinished(cleanupId, token, false, Some(0), None), exitId);
            && f.Decided? && f.decision.run.Some?
            && f.decision.run.value.credentialOperation.None? && f.decision.run.value.queue.value.state.Retired?
  {
  }

  // -------------------------------------------------------------------- the debt stays

  lemma ChangeClears(now: int, t: Task, run: Run, id: string, fingerprint: string, change: Change)
    requires ChangeCredentialOperation(now, t, run, id, fingerprint, change).Decided? && change.Finish?
    requires run.credentialOperation.Some? && run.credentialOperation.value.kind.Cleanup?
    ensures run.credentialOperation.value.mutation.None?
    ensures change.leaseRetiredAtSequence == Some(run.credentialOperation.value.mutationSequence)
  {
  }

  lemma CommandClears(l: Ledger, now: int, r: RunId, cmd: RunCommand, cleanupId: string)
    requires Inv(l, now) && Open(l, r) && l.runs[r].credentialOperation.value.kind.Cleanup? && IsFinish(cmd)
    ensures Open(TransactRun(l, now, r, cmd, cleanupId), r) || ProvesRetirement(l.runs[r], cmd)
  {
    if RunOutcome(l, now, r, cmd, cleanupId).Decided? {
      var t, run := l.task.value, l.runs[r];
      if cmd.OperationFinished? {
        ChangeClears(now, t, run, cmd.finishId, cmd.finishFingerprint,
                     Finish(cmd.restored, cmd.leaseRetiredAtSequence));
      } else {
        ChangeClears(now, t, run, cmd.changeId, cmd.changeFingerprint, cmd.change);
      }
    }
  }

  /** An owed cleanup is cleared only by a finish that proves the lease retired. */
  lemma CleanupClearedByProof(l: Ledger, tick: Tick, clock: int, r: RunId)
    requires Inv(l, clock) && clock <= tick.now && Admissible(l.id, tick.event)
    requires Open(l, r) && l.runs[r].credentialOperation.value.kind.Cleanup?
    ensures Open(Step(l, tick), r) || (FinishesOn(tick.event, r) && ProvesRetirement(l.runs[r], tick.event.cmd))
  {
    if FinishesOn(tick.event, r) {
      InvLater(l, clock, tick.now);
      CommandClears(l, tick.now, r, tick.event.cmd, tick.event.cleanupId);
    } else {
      StepHolds(l, tick, clock, r);
    }
  }
}
