/** Credential operations of claimed Codex runs, from `credential-operation.ts`: reserved,
    then changed mutation by mutation, then finished. */
module Credential {
  import opened Model
  import opened Decide

  const CREDENTIAL_RECOVERY_DELAY_MS := 5 * 60_000
  const MAX_MUTATIONS := 100

  function ReserveCredentialOperation(now: int, task: Task, run: Run, claimFingerprint: string,
                                      id: string, kind: OperationKind): Outcome {
    if !UsesCodexCredentials(run) || !IsClaimant(run, claimFingerprint) then Refuse(NotClaimant)
    else if run.credentialOperation.Some? then Refuse(CredentialOperationPending)
    else if !kind.Cleanup? && !IsLive(run.state) then Refuse(RunNotLive)
    else if !kind.Cleanup? && (task.activeRunId != Some(run.runId) || RecoveryDeadlineElapsed(run, now)) then
      Refuse(StaleLease)
    else
      Decided(Decision(task,
        Some(run.(credentialOperation := Some(CredentialOperation(
                    id, kind, claimFingerprint, now, 0, now + CREDENTIAL_RECOVERY_DELAY_MS, None)),
                  updatedAt := now)),
        None, []))
  }

  datatype Change =
    | Prepare(mutation: CredentialMutation)
    | Acknowledge(mutationId: MutationId, receipt: Option<string>)
    | RetryRecovery
    | Finish(restored: bool, leaseRetiredAtSequence: Option<nat>)

  /** The refusal of a change, or `None`: another operation or claim, a mutation out of turn,
      or a finish that leaves one open or names the wrong sequence. */
  function ChangeRefusal(run: Run, id: string, claimFingerprint: string, change: Change): Option<Outcome> {
    if run.credentialOperation.None? || run.credentialOperation.value.id != id
       || run.credentialOperation.value.claimFingerprint != claimFingerprint
       || !IsClaimant(run, claimFingerprint) then Some(Refuse(NotClaimant))
    else
      var op := run.credentialOperation.value;
      match change
      case Prepare(mutation) =>
        if mutation.id != MutationId(op.id, op.mutationSequence + 1) || op.mutationSequence >= MAX_MUTATIONS then
          Some(Refuse(NotClaimant))
        else if op.mutation.Some? then Some(Refuse(CredentialOperationPending)) else None
      case Acknowledge(mutationId, _) =>
        if op.mutation.None? || op.mutation.value.id != mutationId then Some(Refuse(NotClaimant)) else None
      case RetryRecovery => None
      case Finish(_, sequence) =>
        if op.mutation.Some? then Some(Refuse(CredentialOperationPending))
        else if (op.kind.Cleanup? || run.credentialPendingResult.Some?) && sequence != Some(op.mutationSequence) then
          Some(Refuse(CredentialOperationPending))
        else None
  }

  /** The last event says the executor saw a settled Goose run exit while its cleanup was open. */
  predicate RetiresOnFinish(run: Run) {
    && run.credentialOperation.Some? && run.credentialOperation.value.kind.Cleanup?
    && run.pipeline.Goose?
    && !IsLive(run.state)
    && run.events != []
    && run.events[|run.events| - 1].actor.ByExecutor?
    && (run.state.Lost? || run.events[|run.events| - 1].note == Some(ExitPendingCredentialCleanup))
    && IsClaimed(run)
  }

  function FinishedOperation(run: Run, claimFingerprint: string, restored: bool): Run {
    run.(credentialOperation := None,
         queue := if RetiresOnFinish(run) then Some(run.queue.value.(state := Retired)) else run.queue,
         credentialRestoredClaimFingerprint :=
           if restored then Some(claimFingerprint) else run.credentialRestoredClaimFingerprint)
  }

  /** The run with its operation advanced, postponed or gone; a finish hands a waiting report
      on to `ReportResult`. */
  function ChangeCredentialOperation(now: int, task: Task, run: Run, id: string, claimFingerprint: string,
                                     change: Change): Outcome {
    var refusal := ChangeRefusal(run, id, claimFingerprint, change);
    if refusal.Some? then refusal.value
    else
      var op := run.credentialOperation.value;
      match change
      case Prepare(mutation) =>
        Decided(Decision(task, Some(run.(
          credentialOperation := Some(op.(mutation := Some(mutation), mutationSequence := op.mutationSequence + 1)),
          updatedAt := now)), None, []))
      case Acknowledge(_, receipt) =>
        Decided(Decision(task, Some(run.(
          credentialOperation := Some(op.(mutation := None)),
          credentialWriteReceipt := if receipt.Some? then receipt else run.credentialWriteReceipt,
          updatedAt := now)), None, []))
      case RetryRecovery =>
        Decided(Decision(task, Some(run.(
          credentialOperation := Some(op.(recoverAfter := now + CREDENTIAL_RECOVERY_DELAY_MS)),
          updatedAt := now)), None, []))
      case Finish(restored, _) =>
        var next := FinishedOperation(run, claimFingerprint, restored);
        if run.credentialPendingResult.Some? then
          ReportResult(now, task, next, Some(run.credentialPendingResult.value.claimFingerprint),
                       run.credentialPendingResult.value.result)
        else Decided(Decision(task, Some(next.(updatedAt := now)), None, []))
  }
}
