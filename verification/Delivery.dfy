/** Delivery bindings after settlement, from `delivery.ts`. */
module Delivery {
  import opened Model
  import opened Decide

  datatype Observation =
    | ObservedWaiting(head: string)
    | Merged(head: string, mergeCommit: string)
    | Withdrawn(head: string)
    | Revised(head: string, newHead: string)
    | Correction(head: string, context: string)

  /** Task and run carry the binding at this head, the task is idle, and the run succeeded. */
  predicate BindsDelivery(task: Task, run: Run, head: string) {
    && task.delivery.Some?
    && task.delivery.value.runId == run.runId
    && run.delivery.Some? && run.delivery.value.head == task.delivery.value.head
    && task.delivery.value.head == head
    && task.activeRunId.None?
    && run.state.Finished?
    && run.result.Some? && run.result.value.ok
  }

  function CorrectionArgs(now: int, run: Run, context: string): RequestArgs {
    RequestArgs(now, run.runId.task, CorrectionOf(run.runId), DeliveryCorrection, run.pipeline, Some(run.priority),
                run.params.(mode := Some(Implement), context := Some(context), deliveryPredecessor := Some(run.runId)),
                None, IssueOmitted,
                if run.providerFallback.Some? then Some(Carried(run.providerFallback.value)) else None,
                None)
  }

  function CorrectDelivery(now: int, task: Task, run: Run, context: string): Outcome
    requires task.delivery.Some?
  {
    var successor := RequestRun(CorrectionArgs(now, run, context), Some(task.(delivery := None)), None);
    if !successor.Decided? then successor
    else
      var minted := successor.decision;
      if minted.run.None? then Threw
      else Decided(Decision(
        minted.task.(delivery := Some(task.delivery.value.(correctionRunId := Some(minted.run.value.runId)))),
        Some(run), minted.run, minted.outbox))
  }

  /** Rewrites the head, completes, removes or marks a waiting binding; leaves any other as
      it is. */
  function AdvanceDelivery(now: int, task: Task, run: Run, observation: Observation, authorized: bool): Outcome {
    if task.closedAt.Some? then Refuse(TaskClosed)
    else if !BindsDelivery(task, run, observation.head) then Refuse(StaleLease)
    else
      var binding := task.delivery.value;
      if !binding.state.Waiting? then Decided(Decision(task, Some(run), None, []))
      else match observation
        case ObservedWaiting(_) => Decided(Decision(task, Some(run), None, []))
        case Revised(_, newHead) =>
          var delivery := Some(binding.(head := newHead, observedAt := now));
          Decided(Decision(task.(delivery := delivery, updatedAt := now),
                           Some(run.(delivery := delivery, updatedAt := now)), None, []))
        case Merged(_, mergeCommit) =>
          var delivery := binding.(state := Complete, mergeCommit := Some(mergeCommit), observedAt := now);
          Decided(Decision(task.(delivery := Some(delivery), updatedAt := now),
                           Some(run.(delivery := Some(delivery), updatedAt := now)), None,
                           FinalDeliveryOutbox(task, run, delivery, now)))
        case Withdrawn(_) =>
          Decided(Decision(task.(delivery := None, updatedAt := now),
                           Some(run.(delivery := None, updatedAt := now)), None, []))
        case Correction(_, context) =>
          if !authorized then Refuse(NotClaimant)
          else if binding.correctionRunId.Some? then Refuse(RunNotLive)
          else CorrectDelivery(now, task, run, context)
  }
}
