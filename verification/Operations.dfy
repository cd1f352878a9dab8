/** What each change of a credential operation is accepted on, and all that it writes. */
module Operations {
  import opened Model
  import opened Decide
  import opened Credential
  import opened Orchestrator
  import opened Invariants
  import opened TouchSteps
  import opened CommandPlans

  /** The operation on record is the one named, under the token given. */
  predicate Addressed(run: Run, id: string, fingerprint: string) {
    && run.credentialOperation.Some? && run.credentialOperation.value.id == id
    && run.credentialOperation.value.claimFingerprint == fingerprint
  }

  /** The run with other credential fields, at this instant, and nothing else changed. */
  ghost predicate OnlyCredentials(before: Run, after: Run, now: int) {
    after == before.(credentialOperation := after.credentialOperation, updatedAt := now,
                     credentialWriteReceipt := after.credentialWriteReceipt,
                     credentialRestoredClaimFingerprint := after.credentialRestoredClaimFingerprint)
  }

  /** A command that writes the run alone. */
  ghost predicate WritesRunAlone(o: Outcome, t: Task) {
    o.Decided? ==> o.decision.run.Some? && o.decision == Decision(t, o.decision.run, None, [])
  }

  /** A reservation is on record as asked, for its claimant, at its start: no mutation yet,
      and five minutes before anyone may recover it. */
  lemma ReservationRecorded(now: int, t: Task, run: Run, fingerprint: string, id: string, kind: OperationKind,
                            cleanupId: string)
    ensures var o := DecideOnRun(now, t, run, OperationReserved(fingerprint, id, kind), cleanupId);
            && WritesRunAlone(o, t)
            && (o.Decided? ==>
                  && OnlyCredentials(run, o.decision.run.value, now)
                  && o.decision.run.value.credentialWriteReceipt == run.credentialWriteReceipt
                  && o.decision.run.value.credentialRestoredClaimFingerprint == run.credentialRestoredClaimFingerprint
                  && o.decision.run.value.credentialOperation.Some?
                  && var op := o.decision.run.value.credentialOperation.value;
                     && op.id == id && op.kind == kind && op.claimFingerprint == fingerprint && op.startedAt == now
                     && op.recoverAfter == now + 5 * MINUTES && op.mutationSequence == 0 && op.mutation.None?)
  {
  }

  /** A mutation is prepared exactly under the next number of the named operation, with
      none outstanding and fewer than a hundred before it; it is then outstanding. */
  lemma PrepareAccepted(now: int, t: Task, run: Run, id: string, fingerprint: string, mutation: CredentialMutation,
                        cleanupId: string)
    requires Held(t, run, now)
    ensures var o := DecideOnRun(now, t, run, OperationChanged(id, fingerprint, Prepare(mutation)), cleanupId);
            && WritesRunAlone(o, t)
            && (o.Decided? <==>
                  && Addressed(run, id, fingerprint) && run.credentialOperation.value.mutation.None?
                  && run.credentialOperation.value.mutationSequence < 100
                  && mutation.id == MutationId(id, run.credentialOperation.value.mutationSequence + 1))
            && (o.Decided? ==>
                  && OnlyCredentials(run, o.decision.run.value, now)
                  && o.decision.run.value.credentialWriteReceipt == run.credentialWriteReceipt
                  && o.decision.run.value.credentialRestoredClaimFingerprint == run.credentialRestoredClaimFingerprint
                  && o.decision.run.value.credentialOperation.Some?
                  && var op := o.decision.run.value.credentialOperation.value;
                     && op.mutationSequence == mutation.id.index
                     && op == run.credentialOperation.value.(mutation := Some(mutation),
                                                             mutationSequence := op.mutationSequence))
  {
    assert GoodOperation(run);
  }

  /** It is acknowledged exactly under its own number: nothing is outstanding then, and the
      receipt it brings, if any, is the one on record. */
  lemma AcknowledgeAccepted(now: int, t: Task, run: Run, id: string, fingerprint: string, mutationId: MutationId,
                            receipt: Option<string>, cleanupId: string)
    requires Held(t, run, now)
    ensures var o := DecideOnRun(now, t, run, OperationChanged(id, fingerprint, Acknowledge(mutationId, receipt)),
                                 cleanupId);
            && WritesRunAlone(o, t)
            && (o.Decided? <==>
                  && Addressed(run, id, fingerprint) && run.credentialOperation.value.mutation.Some?
                  && run.credentialOperation.value.mutation.value.id == mutationId)
            && (o.Decided? ==>
                  && OnlyCredentials(run, o.decision.run.value, now)
                  && o.decision.run.value.credentialWriteReceipt
                     == (if receipt.Some? then receipt else run.credentialWriteReceipt)
                  && o.decision.run.value.credentialRestoredClaimFingerprint == run.credentialRestoredClaimFingerprint
                  && o.decision.run.value.credentialOperation
                     == Some(run.credentialOperation.value.(mutation := None)))
  {
    assert GoodOperation(run);
  }

  /** A failed recovery puts the next one off by five minutes, and changes nothing else. */
  lemma RecoveryPutOff(now: int, t: Task, run: Run, id: string, fingerprint: string, cleanupId: string)
    requires Held(t, run, now)
    ensures var o := DecideOnRun(now, t, run, OperationChanged(id, fingerprint, RetryRecovery), cleanupId);
            && WritesRunAlone(o, t)
            && (o.Decided? <==> Addressed(run, id, fingerprint))
            && (o.Decided? ==>
                  && o.decision.run.value == run.(credentialOperation := o.decision.run.value.credentialOperation,
                                                  updatedAt := now)
                  && o.decision.run.value.credentialOperation
                     == Some(run.credentialOperation.value.(recoverAfter := now + 5 * MINUTES)))
  {
    assert GoodOperation(run);
  }

  /** The claim of a settled Goose run whose executor was last seen leaving. */
  ghost predicate LeftBehind(run: Run) {
    && run.pipeline == Goose && !IsLive(run.state) && run.events != []
    && var last := run.events[|run.events| - 1];
       last.actor == ByExecutor && (run.state.Lost? || last.note == Some(ExitPendingCredentialCleanup))
  }

  /** Without a deferred report, a finish is accepted exactly for the named operation with
      nothing outstanding, and for a cleanup only at its exact sequence. The operation is
      gone then, a restore is on record for its claim, and the claim is retired exactly if
      a cleanup finishes that its executor left behind. */
  lemma FinishAccepted(now: int, t: Task, run: Run, cmd: RunCommand, cleanupId: string)
    requires Held(t, run, now) && cmd.OperationFinished? && run.credentialPendingResult.None?
    ensures var o := DecideOnRun(now, t, run, cmd, cleanupId);
            && WritesRunAlone(o, t)
            && (o.Decided? <==>
                  && Addressed(run, cmd.finishId, cmd.finishFingerprint)
                  && run.credentialOperation.value.mutation.None?
                  && (run.credentialOperation.value.kind.Cleanup? ==>
                        cmd.leaseRetiredAtSequence == Some(run.credentialOperation.value.mutationSequence)))
            && (o.Decided? ==>
                  && var after := o.decision.run.value;
                  && OnlyCredentials(run.(queue := after.queue), after, now)
                  && after.credentialOperation.None? && after.credentialWriteReceipt == run.credentialWriteReceipt
                  && after.credentialRestoredClaimFingerprint
                     == (if cmd.restored then Some(cmd.finishFingerprint) else run.credentialRestoredClaimFingerprint)
                  && after.queue.Some?
                  && after.queue.value
                     == if run.credentialOperation.value.kind.Cleanup? && LeftBehind(run)
                        then run.queue.value.(state := Retired) else run.queue.value)
  {
    assert GoodOperation(run);
  }

  /** A finish that settles a deferred report records its restore as well, and fallback or
      not the operation and the deferral are gone. */
  lemma DeferredFinishRestores(now: int, t: Task, run: Run, cmd: RunCommand, cleanupId: string, d: Decision)
    requires Held(t, run, now) && cmd.OperationFinished? && run.credentialPendingResult.Some?
    requires DecideOnRun(now, t, run, cmd, cleanupId) == Decided(d)
    ensures d.run.Some? && d.run.value.state.Finished?
            && d.run.value.credentialOperation.None? && d.run.value.credentialPendingResult.None?
            && d.run.value.queue == run.queue && d.run.value.credentialWriteReceipt == run.credentialWriteReceipt
            && d.run.value.credentialRestoredClaimFingerprint
               == (if cmd.restored then Some(cmd.finishFingerprint) else run.credentialRestoredClaimFingerprint)
  {
    var changed := ChangeCredentialOperation(now, t, run, cmd.finishId, cmd.finishFingerprint,
                                             Finish(cmd.restored, cmd.leaseRetiredAtSequence)).decision;
    DeferredSettles(now, t, run, cmd, changed);
    if cmd.finishAuthority.Some? {
      FallbackCases(now, changed, cmd.finishAuthority.value.authorized, cmd.finishAuthority.value.available);
    }
    assert d.run == changed.run;
  }

  lemma DeferredSettles(now: int, t: Task, run: Run, cmd: RunCommand, d: Decision)
    requires Held(t, run, now) && cmd.OperationFinished? && run.credentialPendingResult.Some?
    requires ChangeCredentialOperation(now, t, run, cmd.finishId, cmd.finishFingerprint,
                                       Finish(cmd.restored, cmd.leaseRetiredAtSequence)) == Decided(d)
    ensures d.run.Some? && d.run.value.state.Finished?
            && d.run.value.credentialOperation.None? && d.run.value.credentialPendingResult.None?
            && d.run.value.queue == run.queue && d.run.value.credentialWriteReceipt == run.credentialWriteReceipt
            && d.run.value.credentialRestoredClaimFingerprint
               == (if cmd.restored then Some(cmd.finishFingerprint) else run.credentialRestoredClaimFingerprint)
  {
    FinishCases(now, t, run, cmd.finishId, cmd.finishFingerprint, cmd.restored, cmd.leaseRetiredAtSequence, d);
  }

  /** Nor does a finish that comes as a mere change of the operation leave one, not even a
      cleanup of the run it settles. */
  lemma FinishLeavesNone(now: int, t: Task, run: Run, id: string, fingerprint: string, change: Change,
                         cleanupId: string, d: Decision)
    requires Held(t, run, now) && change.Finish?
    requires DecideOnRun(now, t, run, OperationChanged(id, fingerprint, change), cleanupId) == Decided(d)
    ensures d.run.Some? && d.run.value.credentialOperation.None?
  {
    if run.credentialPendingResult.Some? {
      FinishCases(now, t, run, id, fingerprint, change.restored, change.leaseRetiredAtSequence, d);
    }
  }

  /** Preparing a mutation and acknowledging it leaves the operation as it was, one mutation
      further on, ready for the next. */
  lemma MutationCycle(now: int, later: int, t: Task, run: Run, id: string, fingerprint: string,
                      mutation: CredentialMutation, receipt: Option<string>, d: Decision)
    requires ChangeCredentialOperation(now, t, run, id, fingerprint, Prepare(mutation)) == Decided(d)
    ensures var o := ChangeCredentialOperation(later, d.task, d.run.value, id, fingerprint,
                                               Acknowledge(mutation.id, receipt));
            && o.Decided? && o.decision.run.Some?
            && o.decision.run.value.credentialOperation
               == Some(run.credentialOperation.value.(mutation := None, mutationSequence := mutation.id.index))
  {
  }
}
