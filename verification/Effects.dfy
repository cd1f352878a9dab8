/** Every durable effect but the issue start is emitted at most once in a history. */
module Effects {
  import opened Model
  import opened Decide
  import opened Ledgers
  import opened Invariants
  import opened Primitives
  import opened Lawful
  import opened Outbox
  import opened CommandPlans
  import opened Machine

  /** The entries a step writes to the outbox as new. */
  function Emitted(l: Ledger, tick: Tick): seq<OutboxEntry> {
    var outcome := StepOutcome(l, tick);
    if outcome.Decided? then outcome.decision.outbox else []
  }

  function Emissions(l: Ledger, trace: seq<Tick>): seq<OutboxEntry>
    decreases |trace|
  {
    if trace == [] then [] else Emitted(l, trace[0]) + Emissions(Step(l, trace[0]), trace[1..])
  }

  ghost predicate Novel(outbox: map<EntryId, OutboxEntry>, id: EntryId) {
    OnceOnly(id) ==> id !in outbox
  }

  /** None of the entries is in the outbox yet. */
  ghost predicate AllNovel(l: Ledger, entries: seq<OutboxEntry>) {
    forall i | 0 <= i < |entries| :: Novel(l.outbox, entries[i].entryId)
  }

  /** No effect is listed twice, but for issue starts. */
  ghost predicate NoRepeat(entries: seq<OutboxEntry>) {
    forall i, j | 0 <= i < j < |entries| && OnceOnly(entries[i].entryId) :: entries[i].entryId != entries[j].entryId
  }

  ghost predicate FreshEntries(l: Ledger, entries: seq<OutboxEntry>) {
    Distinct(entries) && AllNovel(l, entries)
  }

  // ------------------------------------------------------------------- one commit

  lemma TouchEmits(l: Ledger, r: RunId, d: Decision, now: int)
    requires Reads(l, r, now) && Touches(l.task.value, l.runs[r], d, now)
    ensures FreshEntries(l, d.outbox)
    ensures forall i | 0 <= i < |d.outbox| :: !d.outbox[i].entryId.effect.DispatchRun?
  {
    assert RunLocked(l, r);
    forall i | 0 <= i < |d.outbox| ensures Novel(l.outbox, d.outbox[i].entryId) {
      var id := d.outbox[i].entryId;
      if id in l.outbox { assert GoodEntry(l, id); }
      assert EffectKept(l.task.value, d.task, id, r, Settles(l.runs[r], d.run.value));
    }
  }

  lemma MintEmits(l: Ledger, d: Decision, now: int)
    requires Inv(l, now) && Mints(l, d, now)
    ensures FreshEntries(l, d.outbox) && |d.outbox| == 1 && d.outbox[0].entryId.effect.DispatchRun?
  {
    MintedLedger(l, Commit(l, d), d, now);
    assert d.outbox[0].entryId in l.outbox ==> GoodEntry(l, d.outbox[0].entryId);
  }

  lemma SequenceEmits(l: Ledger, r: RunId, touch: Decision, mint: Decision, now: int)
    requires Inv(l, now) && TouchThenMint(l, r, touch, mint, now)
    ensures FreshEntries(l, touch.outbox + mint.outbox)
  {
    TouchEmits(l, r, touch, now);
    TouchPreserves(l, r, touch, now);
    MintEmits(Commit(l, touch), mint, now);
    PutEntriesKeys(l.outbox, touch.outbox);
    DispatchLast(l, Commit(l, touch), touch.outbox, mint.outbox);
  }

  lemma DispatchLast(l: Ledger, k: Ledger, a: seq<OutboxEntry>, b: seq<OutboxEntry>)
    requires FreshEntries(l, a) && FreshEntries(k, b) && l.outbox.Keys <= k.outbox.Keys
    requires forall i | 0 <= i < |a| :: !a[i].entryId.effect.DispatchRun?
    requires |b| == 1 && b[0].entryId.effect.DispatchRun?
    ensures FreshEntries(l, a + b)
  {
  }

  lemma PlanEmits(l: Ledger, d: Decision, plan: Plan, now: int)
    requires Inv(l, now) && Follows(l, d, plan, now)
    ensures FreshEntries(l, d.outbox)
  {
    match plan {
      case TouchPlan(r) => TouchEmits(l, r, d, now);
      case TaskPlan =>
      case MintPlan => MintEmits(l, d, now);
      case FollowPlan(r, touch, mint) => SequenceEmits(l, r, touch, mint, now);
      case JoinPlan(r, touch, mint) => SequenceEmits(l, r, touch, mint, now);
    }
  }

  lemma {:induction false} PutEntriesKeep(outbox: map<EntryId, OutboxEntry>, entries: seq<OutboxEntry>, id: EntryId)
    requires id in outbox && id !in Ids(entries)
    ensures id in PutEntries(outbox, entries) && PutEntries(outbox, entries)[id] == outbox[id]
    decreases |entries|
  {
    if entries != [] {
      assert entries[0].entryId in Ids(entries);
      assert forall i | 0 <= i < |entries[1..]| :: entries[1..][i] == entries[i + 1];
      PutEntriesKeep(outbox[entries[0].entryId := entries[0]], entries[1..], id);
    }
  }

  // --------------------------------------------------------------------- one step

  /** A step emits only entries the outbox never held, adds exactly those, and
      leaves every other entry to the outbox's own claim, settle and wake. */
  lemma StepEmits(l: Ledger, tick: Tick, clock: int)
    requires Inv(l, clock) && clock <= tick.now && Admissible(l.id, tick.event)
    ensures FreshEntries(l, Emitted(l, tick))
    ensures Step(l, tick).outbox.Keys == l.outbox.Keys + Ids(Emitted(l, tick))
  {
    InvLater(l, clock, tick.now);
    var kind := StepKind(l, tick);
    KindEmits(l, Step(l, tick), kind, tick.now);
    PutEntriesKeys(l.outbox, Emitted(l, tick));
  }

  ghost function KindOutbox(kind: Kind): seq<OutboxEntry> {
    if kind.Lawfully? then kind.decision.outbox else []
  }

  lemma KindEmits(l: Ledger, k: Ledger, kind: Kind, now: int)
    requires Inv(l, now) && StepIs(l, k, kind, now)
    ensures FreshEntries(l, KindOutbox(kind))
    ensures k.outbox.Keys == l.outbox.Keys + Ids(KindOutbox(kind))
  {
    match kind {
      case Quiet =>
      case Lawfully(base, d, plan) =>
        PlanEmits(base, d, plan, now);
        PutEntriesKeys(base.outbox, d.outbox);
      case RunWrite(r, after) =>
    }
  }

  ghost predicate OutboxEvent(event: Event) {
    event.EntryLeased? || event.EntrySettled? || event.EntryWoken?
  }

  /** A commit never resets an entry: leased, done or failed stays what it was. */
  lemma CommitsNeverOverwrite(l: Ledger, tick: Tick, clock: int, id: EntryId)
    requires Inv(l, clock) && clock <= tick.now && Admissible(l.id, tick.event)
    requires id in l.outbox && OnceOnly(id) && !OutboxEvent(tick.event)
    ensures id in Step(l, tick).outbox && Step(l, tick).outbox[id] == l.outbox[id]
  {
    StepEmits(l, tick, clock);
    assert id !in Ids(Emitted(l, tick));
    StepWrites(l, tick);
    PutEntriesKeep(l.outbox, Emitted(l, tick), id);
  }

  /** Outside the outbox's own events a step writes exactly what it emits. */
  lemma StepWrites(l: Ledger, tick: Tick)
    requires !OutboxEvent(tick.event)
    ensures Step(l, tick).outbox == PutEntries(l.outbox, Emitted(l, tick))
  {
    assert PutEntries(l.outbox, []) == l.outbox;
  }

  // ---------------------------------------------------------------- over histories

  /** No effect is emitted twice, nor after the outbox already holds it. */
  lemma {:induction false} EmittedOnce(l: Ledger, trace: seq<Tick>, clock: int)
    requires Inv(l, clock) && Timely(l.id, clock, trace)
    ensures AllNovel(l, Emissions(l, trace)) && NoRepeat(Emissions(l, trace))
    ensures Exec(l, trace).outbox.Keys == l.outbox.Keys + Ids(Emissions(l, trace))
    decreases |trace|
  {
    if trace == [] {
      assert Emissions(l, trace) == [] && Ids([]) == {};
    } else {
      var k, rest := Step(l, trace[0]), trace[1..];
      StepEmits(l, trace[0], clock);
      StepPreserves(l, trace[0], clock);
      assert Timely(k.id, trace[0].now, rest);
      EmittedOnce(k, rest, trace[0].now);
      EmissionsJoin(l, k, Emitted(l, trace[0]), Emissions(k, rest), Exec(k, rest).outbox.Keys);
      assert Emissions(l, trace) == Emitted(l, trace[0]) + Emissions(k, rest);
    }
  }

  lemma EmissionsJoin(l: Ledger, k: Ledger, a: seq<OutboxEntry>, b: seq<OutboxEntry>, final: set<EntryId>)
    requires FreshEntries(l, a) && k.outbox.Keys == l.outbox.Keys + Ids(a)
    requires AllNovel(k, b) && NoRepeat(b) && final == k.outbox.Keys + Ids(b)
    ensures AllNovel(l, a + b) && NoRepeat(a + b)
    ensures final == l.outbox.Keys + Ids(a + b)
  {
    forall i, j | 0 <= i < j < |a + b| && OnceOnly((a + b)[i].entryId)
      ensures (a + b)[i].entryId != (a + b)[j].entryId
    {
      if i < |a| <= j {
        assert a[i].entryId in Ids(a);
        assert Novel(k.outbox, b[j - |a|].entryId);
      }
    }
    IdsJoin(a, b);
  }

  lemma IdsJoin(a: seq<OutboxEntry>, b: seq<OutboxEntry>)
    ensures Ids(a + b) == Ids(a) + Ids(b)
  {
    forall i | 0 <= i < |b| ensures b[i].entryId in Ids(a + b) { assert (a + b)[|a| + i] == b[i]; }
    forall i | 0 <= i < |a| ensures a[i].entryId in Ids(a + b) { assert (a + b)[i] == a[i]; }
  }

  lemma ListedOnce(entries: seq<OutboxEntry>)
    requires NoRepeat(entries)
    ensures forall id :: id in Ids(entries) <==> Emits(entries, id)
    ensures forall id | OnceOnly(id) && Emits(entries, id) :: EmittedExactlyOnce(entries, id)
  {
  }

  ghost predicate EmittedExactlyOnce(entries: seq<OutboxEntry>, id: EntryId) {
    && Emits(entries, id)
    && forall i, j | 0 <= i < j < |entries| && entries[i].entryId == id :: entries[j].entryId != id
  }
}
