/** Lawful commits: one primitive, or a touch followed by a mint. */
module Lawful {
  import opened Model
  import opened Decide
  import opened Ledgers
  import opened Invariants
  import opened Primitives

  /** `d` settles or rewrites run `r` and mints its successor in one commit. */
  ghost predicate TouchThenMint(l: Ledger, r: RunId, touch: Decision, mint: Decision, now: int) {
    && r in l.runs && l.task.Some?
    && Touches(l.task.value, l.runs[r], touch, now)
    && Mints(Commit(l, touch), mint, now)
  }

  /** Which primitives a commit is made of. */
  datatype Plan =
    | TouchPlan(run: RunId)
    | TaskPlan
    | MintPlan
    | FollowPlan(run: RunId, touch: Decision, mint: Decision)
    | JoinPlan(run: RunId, touch: Decision, mint: Decision)

  ghost predicate Follows(l: Ledger, d: Decision, plan: Plan, now: int) {
    match plan
    case TouchPlan(r) => l.task.Some? && r in l.runs && Touches(l.task.value, l.runs[r], d, now)
    case TaskPlan => TaskChange(l, d)
    case MintPlan => Mints(l, d, now)
    case FollowPlan(r, touch, mint) => d == Followed(touch, mint) && TouchThenMint(l, r, touch, mint, now)
    case JoinPlan(r, touch, mint) => d == Joined(touch, mint) && TouchThenMint(l, r, touch, mint, now)
  }

  /** `k` differs from `l` only where the invariant does not look, or in more receipts. */
  ghost predicate Extends(l: Ledger, k: Ledger) {
    && k.id == l.id && k.task == l.task && k.runs == l.runs && k.requestRuns == l.requestRuns
    && k.outbox.Keys == l.outbox.Keys
    && l.sourceRevisions.Keys <= k.sourceRevisions.Keys
  }

  lemma ExtendsLocks(l: Ledger, k: Ledger)
    requires Extends(l, k) && MutexInv(l) && IndexInv(l)
    ensures MutexInv(k) && IndexInv(k)
  {
    forall r | r in k.runs ensures RunLocked(k, r) && Indexed(k, r) { assert RunLocked(l, r) && Indexed(l, r); }
    forall x | x in k.requestRuns ensures GoodKey(k, x) { assert GoodKey(l, x); }
  }

  lemma ExtendsEffects(l: Ledger, k: Ledger)
    requires Extends(l, k) && EffectInv(l)
    ensures EffectInv(k)
  {
    forall r | r in k.runs ensures RunEffects(k, r) { assert RunEffects(l, r); }
    forall e | e in k.outbox ensures GoodEntry(k, e) { assert GoodEntry(l, e); }
  }

  lemma ExtendsPreserves(l: Ledger, k: Ledger, now: int)
    requires Extends(l, k) && Inv(l, now)
    ensures Inv(k, now)
  {
    ExtendsLocks(l, k);
    ExtendsEffects(l, k);
  }

  /** The two halves write different runs under different keys. */
  lemma HalvesDiffer(l: Ledger, r: RunId, touch: Decision, mint: Decision, now: int)
    requires Inv(l, now) && TouchThenMint(l, r, touch, mint, now)
    ensures touch.run.value.runId != mint.run.value.runId && KeyOf(touch.run.value) != KeyOf(mint.run.value)
  {
    var k := Commit(l, touch);
    TouchPreserves(l, r, touch, now);
    MintedLedger(k, Commit(k, mint), mint, now);
    assert touch.run.value.runId in k.runs && KeyOf(touch.run.value) in k.requestRuns;
  }

  /** Every lawful commit preserves the invariant. */
  lemma LawfulPreserves(l: Ledger, d: Decision, plan: Plan, now: int)
    requires Inv(l, now) && Follows(l, d, plan, now)
    ensures Inv(Commit(l, d), now)
  {
    match plan
    case TouchPlan(r) => TouchPreserves(l, r, d, now);
    case TaskPlan => TaskChangePreserves(l, d, now);
    case MintPlan => MintPreserves(l, d, now);
    case FollowPlan(r, touch, mint) => SequencePreserves(l, r, touch, mint, now);
    case JoinPlan(r, touch, mint) => SequencePreserves(l, r, touch, mint, now);
  }

  lemma SequencePreserves(l: Ledger, r: RunId, touch: Decision, mint: Decision, now: int)
    requires Inv(l, now) && TouchThenMint(l, r, touch, mint, now)
    ensures Inv(Commit(l, Followed(touch, mint)), now) && Inv(Commit(l, Joined(touch, mint)), now)
  {
    HalvesDiffer(l, r, touch, mint, now);
    FollowedIsSequence(l, touch, mint);
    TouchPreserves(l, r, touch, now);
    MintPreserves(Commit(l, touch), mint, now);
    var k := Commit(Commit(l, touch), mint);
    ExtendsPreserves(k, k.(revision := l.revision + 1), now);
  }
}
