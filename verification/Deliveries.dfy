/** Observations of a bound delivery: exactly which count, and what each one writes. */
module Deliveries {
  import opened Model
  import opened Decide
  import opened Delivery
  import opened Orchestrator
  import opened Invariants
  import opened TouchSteps
  import opened Requests

  /** The idle open task and the run agree on a delivery at this head, and the run earned it. */
  predicate Bound(t: Task, run: Run, head: string) {
    && t.closedAt.None? && t.activeRunId.None? && t.delivery.Some? && run.delivery.Some?
    && t.delivery.value.runId == run.runId
    && t.delivery.value.head == head && run.delivery.value.head == head
    && run.state.Finished? && run.result.Some? && run.result.value.ok
  }

  /** An observation counts exactly at the bound head; a correction of a waiting delivery also
      needs its authority, and only the first one counts. */
  lemma ObservationAccepted(now: int, t: Task, run: Run, observation: Observation, authorized: bool, cleanupId: string)
    requires Held(t, run, now)
    ensures DecideOnRun(now, t, run, DeliveryObserved(observation, authorized), cleanupId).Decided? <==>
              && Bound(t, run, observation.head)
              && (observation.Correction? && t.delivery.value.state.Waiting? ==>
                    authorized && t.delivery.value.correctionRunId.None?)
  {
  }

  /** Task and run with another binding, at this instant, and otherwise as they were. */
  ghost predicate Rebinds(now: int, t: Task, run: Run, binding: Option<DeliveryBinding>, d: Decision) {
    && d.task == t.(delivery := binding, updatedAt := now) && d.additionalRun.None?
    && d.run == Some(run.(delivery := binding, updatedAt := now))
  }

  /** What an accepted observation writes: nothing once the delivery is complete or while it
      still waits; a revision the new head, a merge the completion and its commit, to task and
      run alike; a withdrawal removes the binding from both. */
  lemma ObservationWrites(now: int, t: Task, run: Run, observation: Observation, authorized: bool, cleanupId: string,
                          d: Decision)
    requires Held(t, run, now) && !observation.Correction?
    requires DecideOnRun(now, t, run, DeliveryObserved(observation, authorized), cleanupId) == Decided(d)
    ensures var binding := t.delivery.value;
            if observation.ObservedWaiting? || binding.state.Complete? then d == Decision(t, Some(run), None, [])
            else match observation
                 case Revised(_, next) =>
                   Rebinds(now, t, run, Some(binding.(head := next, observedAt := now)), d) && d.outbox == []
                 case Merged(_, commit) =>
                   && Rebinds(now, t, run,
                              Some(binding.(state := Complete, mergeCommit := Some(commit), observedAt := now)), d)
                   && d.outbox == if t.task.Work? then [NewEntry(DeliveryOutcome, run.runId, now)] else []
                 case Withdrawn(_) => Rebinds(now, t, run, None, d) && d.outbox == []
                 case _ => true
  {
  }

  /** A correction is asked of the same provider at the same priority, in the words of the
      observation, to implement on top of the bound run and under its policy; the bound run
      stands, and the delivery keeps waiting, now for that correction. */
  lemma CorrectionAsks(now: int, t: Task, run: Run, observation: Observation, cleanupId: string, d: Decision)
    requires Held(t, run, now) && observation.Correction? && DeliveryWaiting(t)
    requires DecideOnRun(now, t, run, DeliveryObserved(observation, true), cleanupId) == Decided(d)
    ensures d.run == Some(run) && d.additionalRun.Some? && Newborn(d.additionalRun.value, now)
    ensures var next := d.additionalRun.value;
            && next.pipeline == run.pipeline && next.priority == run.priority && next.issue == t.issue
            && next.params == run.params.(mode := Some(Implement), context := Some(observation.context),
                                          deliveryPredecessor := Some(run.runId))
            && next.requestSource.DeliveryCorrection? && next.requestId == CorrectionOf(run.runId)
            && next.providerFallback == run.providerFallback && next.sourceRevision.None?
            && d.outbox == [NewEntry(DispatchRun, next.runId, now)]
            && d.task.activeRunId == Some(next.runId) && d.task.work == t.work && d.task.issue == t.issue
            && d.task.delivery == Some(t.delivery.value.(correctionRunId := Some(next.runId)))
  {
    assert run.providerFallback.Some? ==> GoodPolicy(run.providerFallback.value, run.pipeline);
  }
}
