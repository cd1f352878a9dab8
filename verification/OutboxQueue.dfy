/** The claim order of the outbox, from `claimPendingOutbox` and `byOutboxClaimFairness`:
    expired leases first, then due entries by how often they were handed out. */
module OutboxQueue {
  import opened Model
  import opened Outbox

  /** Every entry once, an id written earlier before one written later. */
  datatype Queue = Queue(order: seq<EntryId>, entries: map<EntryId, OutboxEntry>)

  ghost predicate Valid(q: Queue) {
    && (forall i, j | 0 <= i < j < |q.order| :: q.order[i] != q.order[j])
    && (forall id :: id in q.order <==> id in q.entries)
  }

  /** Fewer attempts first, then older; equal entries keep their order. */
  predicate Before(a: OutboxEntry, b: OutboxEntry) {
    a.attempts < b.attempts || (a.attempts == b.attempts && a.createdAt <= b.createdAt)
  }

  ghost predicate Listed(ids: seq<EntryId>, entries: map<EntryId, OutboxEntry>) {
    forall id | id in ids :: id in entries
  }

  function Insert(id: EntryId, sorted: seq<EntryId>, entries: map<EntryId, OutboxEntry>): (r: seq<EntryId>)
    requires id in entries && Listed(sorted, entries)
    ensures multiset(r) == multiset(sorted) + multiset{id}
    ensures Listed(r, entries)
  {
    if sorted == [] || Before(entries[id], entries[sorted[0]]) then
      assert multiset([id] + sorted) == multiset{id} + multiset(sorted);
      assert forall x | x in [id] + sorted :: x == id || x in sorted;
      [id] + sorted
    else
      assert sorted == [sorted[0]] + sorted[1..];
      var rest := Insert(id, sorted[1..], entries);
      assert forall x | x in [sorted[0]] + rest :: x == sorted[0] || x in rest;
      [sorted[0]] + rest
  }

  /** The stable sort of the claim. */
  function SortFair(ids: seq<EntryId>, entries: map<EntryId, OutboxEntry>): (r: seq<EntryId>)
    requires Listed(ids, entries)
    ensures multiset(r) == multiset(ids) && Listed(r, entries)
  {
    if ids == [] then []
    else
      assert ids == [ids[0]] + ids[1..];
      Insert(ids[0], SortFair(ids[1..], entries), entries)
  }

  ghost predicate Ordered(ids: seq<EntryId>, entries: map<EntryId, OutboxEntry>) {
    Listed(ids, entries) && forall i, j | 0 <= i < j < |ids| :: Before(entries[ids[i]], entries[ids[j]])
  }

  lemma {:induction false} InsertOrders(id: EntryId, sorted: seq<EntryId>, entries: map<EntryId, OutboxEntry>)
    requires id in entries && Ordered(sorted, entries)
    ensures Ordered(Insert(id, sorted, entries), entries)
    decreases |sorted|
  {
    if sorted != [] && !Before(entries[id], entries[sorted[0]]) {
      var rest := Insert(id, sorted[1..], entries);
      assert Ordered(sorted[1..], entries);
      InsertOrders(id, sorted[1..], entries);
      forall j | 0 <= j < |rest| ensures Before(entries[sorted[0]], entries[rest[j]]) {
        assert rest[j] in multiset(rest);
        assert rest[j] == id || rest[j] in sorted[1..];
      }
    }
  }

  lemma {:induction false} SortOrders(ids: seq<EntryId>, entries: map<EntryId, OutboxEntry>)
    requires Listed(ids, entries)
    ensures Ordered(SortFair(ids, entries), entries)
    decreases |ids|
  {
    if ids != [] {
      SortOrders(ids[1..], entries);
      InsertOrders(ids[0], SortFair(ids[1..], entries), entries);
    }
  }

  // ------------------------------------------------------------------------ one claim

  /** One drain: how many to claim, when, until when, and what it skips. */
  datatype Drain = Drain(limit: int, now: int, leaseExpiresAt: int, excluded: set<EntryId>, claimId: EntryId -> string)

  function ExpiredIn(order: seq<EntryId>, entries: map<EntryId, OutboxEntry>, now: int): (r: seq<EntryId>)
    requires Listed(order, entries)
    ensures forall id :: id in r <==> id in order && EntryExpired(entries[id], now)
  {
    if order == [] then []
    else
      var rest := ExpiredIn(order[1..], entries, now);
      if EntryExpired(entries[order[0]], now) then [order[0]] + rest else rest
  }

  function DueIn(order: seq<EntryId>, entries: map<EntryId, OutboxEntry>, now: int,
                 excluded: set<EntryId>): (r: seq<EntryId>)
    requires Listed(order, entries)
    ensures forall id :: id in r <==> id in order && Due(entries[id], now) && id !in excluded
  {
    if order == [] then []
    else
      var rest := DueIn(order[1..], entries, now, excluded);
      if Due(entries[order[0]], now) && order[0] !in excluded then [order[0]] + rest else rest
  }

  function Eligible(q: Queue, drain: Drain): seq<EntryId>
    requires Valid(q)
  {
    ExpiredIn(q.order, q.entries, drain.now)
    + SortFair(DueIn(q.order, q.entries, drain.now, drain.excluded), q.entries)
  }

  function Selection(q: Queue, drain: Drain): seq<EntryId>
    requires Valid(q)
  {
    var eligible := Eligible(q, drain);
    if drain.limit <= 0 then [] else if drain.limit < |eligible| then eligible[..drain.limit] else eligible
  }

  /** Leasing hands each selected entry out once more, under a fresh claim. */
  function LeaseAll(entries: map<EntryId, OutboxEntry>, ids: seq<EntryId>, drain: Drain): map<EntryId, OutboxEntry> {
    map id | id in entries ::
      if id in ids then LeaseEntry(entries[id], drain.claimId(id), drain.leaseExpiresAt, drain.now) else entries[id]
  }

  function Claim(q: Queue, drain: Drain): Queue
    requires Valid(q)
  {
    q.(entries := LeaseAll(q.entries, Selection(q, drain), drain))
  }

  /** Nothing ineligible is ever leased. */
  lemma SelectionIsEligible(q: Queue, drain: Drain, id: EntryId)
    requires Valid(q) && id in Selection(q, drain)
    ensures id in q.entries
    ensures EntryExpired(q.entries[id], drain.now) || (Due(q.entries[id], drain.now) && id !in drain.excluded)
  {
    var due := DueIn(q.order, q.entries, drain.now, drain.excluded);
    assert id in SortFair(due, q.entries) ==> id in multiset(due);
  }

  lemma DueIsSorted(q: Queue, drain: Drain, e: EntryId)
    requires Valid(q) && e in q.entries && Due(q.entries[e], drain.now) && e !in drain.excluded
    ensures e in SortFair(DueIn(q.order, q.entries, drain.now, drain.excluded), q.entries)
  {
    var due := DueIn(q.order, q.entries, drain.now, drain.excluded);
    assert e in due && e in multiset(due);
    assert e in multiset(SortFair(due, q.entries));
  }

  /** In a list whose second part is ordered, what a prefix takes from that part
      comes before what it leaves. */
  lemma PrefixBefore(first: seq<EntryId>, sorted: seq<EntryId>, entries: map<EntryId, OutboxEntry>, n: nat,
                     x: EntryId, e: EntryId)
    requires Ordered(sorted, entries) && n < |first + sorted|
    requires x in (first + sorted)[..n] && x !in first
    requires e in sorted && e !in (first + sorted)[..n]
    ensures x in sorted && Before(entries[x], entries[e])
  {
    var i :| 0 <= i < n && (first + sorted)[i] == x;
    var j :| 0 <= j < |sorted| && sorted[j] == e;
    assert (first + sorted)[|first| + j] == e;
    assert n <= |first| + j;
    assert sorted[i - |first|] == x;
  }

  /** A due entry left unclaimed is behind every due entry that was claimed, and the
      claim was full. */
  lemma UnclaimedIsBehind(q: Queue, drain: Drain, x: EntryId, e: EntryId)
    requires Valid(q) && e in q.entries && 0 < drain.limit
    requires Due(q.entries[e], drain.now) && e !in drain.excluded && e !in Selection(q, drain)
    ensures |Selection(q, drain)| == drain.limit
    ensures x in Selection(q, drain) && x in q.entries && Due(q.entries[x], drain.now) ==>
              || q.entries[x].attempts < q.entries[e].attempts
              || (q.entries[x].attempts == q.entries[e].attempts && q.entries[x].createdAt <= q.entries[e].createdAt)
  {
    var expired := ExpiredIn(q.order, q.entries, drain.now);
    var due := DueIn(q.order, q.entries, drain.now, drain.excluded);
    DueIsSorted(q, drain, e);
    assert e in Eligible(q, drain);
    if x in Selection(q, drain) && x in q.entries && Due(q.entries[x], drain.now) {
      SortOrders(due, q.entries);
      PrefixBefore(expired, SortFair(due, q.entries), q.entries, drain.limit, x, e);
    }
  }

  /** An entry whose lease ran out is left only for others like it: the drain was full of them. */
  lemma ExpiredComeFirst(q: Queue, drain: Drain, x: EntryId, e: EntryId)
    requires Valid(q) && e in q.entries && 0 < drain.limit
    requires EntryExpired(q.entries[e], drain.now) && e !in Selection(q, drain)
    ensures |Selection(q, drain)| == drain.limit
    ensures x in Selection(q, drain) ==> x in q.entries && EntryExpired(q.entries[x], drain.now)
  {
    var expired := ExpiredIn(q.order, q.entries, drain.now);
    assert e in expired;
    assert forall i | 0 <= i < |expired| :: Eligible(q, drain)[i] == expired[i];
    assert forall i | 0 <= i < |expired| && i < |Selection(q, drain)| :: expired[i] in Selection(q, drain);
    if x in Selection(q, drain) {
      var i :| 0 <= i < |Selection(q, drain)| && Selection(q, drain)[i] == x;
      assert expired[i] == x;
    }
  }

  /** A drain leases what it selects, no more than its limit: each entry once more than before,
      to the claim made for it, until the end given; every other entry stands. */
  lemma DrainLeases(q: Queue, drain: Drain, id: EntryId)
    requires Valid(q) && id in q.entries
    ensures |Selection(q, drain)| <= if 0 < drain.limit then drain.limit else 0
    ensures var k := Claim(q, drain);
            && k.order == q.order && k.entries.Keys == q.entries.Keys
            && k.entries[id] == if id !in Selection(q, drain) then q.entries[id]
                                else q.entries[id].(state := Leased(drain.claimId(id), drain.leaseExpiresAt),
                                                    attempts := q.entries[id].attempts + 1, updatedAt := drain.now)
  {
  }

  // ------------------------------------------------------------------------- its events

  datatype QueueEvent =
    | Drained(drain: Drain)
    | SettledBy(settlement: Settlement)
    | WokenAt(entry: EntryId, at: int)
    | Added(added: OutboxEntry)

  function Replace(q: Queue, id: EntryId, entry: Option<OutboxEntry>): Queue
    requires id in q.entries
  {
    if entry.None? then q else q.(entries := q.entries[id := entry.value])
  }

  /** A commit writes its entry over any other of that id, which keeps its place; a new
      id joins at the end. */
  function QueueNext(q: Queue, event: QueueEvent): (r: Queue)
    requires Valid(q)
    ensures Valid(r)
  {
    match event
    case Drained(drain) => Claim(q, drain)
    case SettledBy(s) =>
      if s.entryId !in q.entries then q else Replace(q, s.entryId, SettleOutboxEntry(q.entries[s.entryId], s))
    case WokenAt(id, at) => if id !in q.entries then q else Replace(q, id, WakeOutboxEntry(q.entries[id], at))
    case Added(entry) =>
      Queue(if entry.entryId in q.entries then q.order else q.order + [entry.entryId],
            q.entries[entry.entryId := entry])
  }

  function QueueRun(q: Queue, events: seq<QueueEvent>): (r: Queue)
    requires Valid(q)
    ensures Valid(r)
    decreases |events|
  {
    if events == [] then q else QueueRun(QueueNext(q, events[0]), events[1..])
  }

  /** The events of one commit. */
  function Adds(entries: seq<OutboxEntry>): seq<QueueEvent> {
    seq(|entries|, i requires 0 <= i < |entries| => Added(entries[i]))
  }

  /** What commits are limited to: fresh entries, and only an issue start a second time. */
  ghost predicate LawfulAdds(q: Queue, events: seq<QueueEvent>)
    requires Valid(q)
    decreases |events|
  {
    events == [] ||
    (&& (events[0].Added? ==>
           FreshEntry(events[0].added)
           && (OnceOnly(events[0].added.entryId) ==> events[0].added.entryId !in q.entries))
     && LawfulAdds(QueueNext(q, events[0]), events[1..]))
  }

  // ------------------------------------------------------------------- bounded overtaking

  /** While `e` is pending, due and not excluded at every drain, none of them takes it. */
  ghost predicate KeepsWaiting(q: Queue, events: seq<QueueEvent>, e: EntryId)
    requires Valid(q)
    decreases |events|
  {
    && e in q.entries && q.entries[e].state.EntryPending?
    && (events == [] ||
        (&& (events[0].Drained? ==>
               Due(q.entries[e], events[0].drain.now) && e !in events[0].drain.excluded
               && e !in Selection(q, events[0].drain))
         && KeepsWaiting(QueueNext(q, events[0]), events[1..], e)))
  }

  /** Is `x` taken from the pending entries by this event? */
  predicate Takes(q: Queue, event: QueueEvent, x: EntryId)
    requires Valid(q)
  {
    event.Drained? && x in q.entries && q.entries[x].state.EntryPending? && x in Selection(q, event.drain)
  }

  function Overtakes(q: Queue, events: seq<QueueEvent>, x: EntryId): nat
    requires Valid(q)
    decreases |events|
  {
    if events == [] then 0
    else (if Takes(q, events[0], x) then 1 else 0) + Overtakes(QueueNext(q, events[0]), events[1..], x)
  }

  predicate AddsAgain(event: QueueEvent, x: EntryId) {
    event.Added? && event.added.entryId == x
  }

  /** How often `x` is written over meanwhile. */
  function Readds(events: seq<QueueEvent>, x: EntryId): nat {
    if events == [] then 0 else (if AddsAgain(events[0], x) then 1 else 0) + Readds(events[1..], x)
  }

  /** How often `x` may still be handed out before `e` is its turn. */
  function Ahead(q: Queue, x: EntryId, e: EntryId): nat
    requires x in q.entries && e in q.entries
  {
    if q.entries[x].attempts <= q.entries[e].attempts then q.entries[e].attempts - q.entries[x].attempts + 1 else 0
  }

  /** Attempts count the drains that took an entry, until it is written over. */
  lemma QueueKeepsEntries(q: Queue, event: QueueEvent, x: EntryId)
    requires Valid(q) && x in q.entries
    ensures x in QueueNext(q, event).entries
    ensures !AddsAgain(event, x) ==>
              QueueNext(q, event).entries[x].attempts
              == q.entries[x].attempts + (if event.Drained? && x in Selection(q, event.drain) then 1 else 0)
    ensures AddsAgain(event, x) ==> QueueNext(q, event).entries[x] == event.added
  {
  }

  /** The event keeps `e` waiting, and adds only fresh entries. */
  ghost predicate WaitsThrough(q: Queue, event: QueueEvent, e: EntryId)
    requires Valid(q)
  {
    && e in q.entries
    && (event.Drained? ==>
          Due(q.entries[e], event.drain.now) && e !in event.drain.excluded && e !in Selection(q, event.drain))
    && (event.Added? ==> FreshEntry(event.added))
  }

  lemma StepAhead(q: Queue, event: QueueEvent, x: EntryId, e: EntryId)
    requires Valid(q) && x in q.entries && WaitsThrough(q, event, e)
    ensures x in QueueNext(q, event).entries && e in QueueNext(q, event).entries
    ensures QueueNext(q, event).entries[e].attempts <= q.entries[e].attempts
    ensures !AddsAgain(event, x) ==>
              (if Takes(q, event, x) then 1 else 0) + Ahead(QueueNext(q, event), x, e) <= Ahead(q, x, e)
    ensures AddsAgain(event, x) ==>
              !Takes(q, event, x) && Ahead(QueueNext(q, event), x, e) <= q.entries[e].attempts + 1
  {
    QueueKeepsEntries(q, event, x);
    QueueKeepsEntries(q, event, e);
    if Takes(q, event, x) {
      SelectionIsEligible(q, event.drain, x);
      UnclaimedIsBehind(q, event.drain, x, e);
    }
  }

  /** What writing over an entry allows it anew: every hand-out from none on. */
  function Allowance(readds: nat, most: nat): nat {
    if readds == 0 then 0 else most + 1 + Allowance(readds - 1, most)
  }

  /** While an entry waits, any other is handed out ahead of it at most
      `e.attempts - x.attempts + 1` times, and as often again, from none, each time it
      is written over. */
  lemma {:induction false} BoundedOvertaking(q: Queue, events: seq<QueueEvent>, x: EntryId, e: EntryId, most: nat)
    requires Valid(q) && x in q.entries && LawfulAdds(q, events) && KeepsWaiting(q, events, e)
    requires q.entries[e].attempts <= most
    ensures Overtakes(q, events, x) <= Ahead(q, x, e) + Allowance(Readds(events, x), most)
    decreases |events|
  {
    if events != [] {
      var next, rest := QueueNext(q, events[0]), events[1..];
      NextWaits(q, events, e);
      StepAhead(q, events[0], x, e);
      BoundedOvertaking(next, rest, x, e, most);
      Charged(q, events, x);
    }
  }

  lemma NextWaits(q: Queue, events: seq<QueueEvent>, e: EntryId)
    requires Valid(q) && LawfulAdds(q, events) && KeepsWaiting(q, events, e) && events != []
    ensures WaitsThrough(q, events[0], e)
    ensures LawfulAdds(QueueNext(q, events[0]), events[1..]) && KeepsWaiting(QueueNext(q, events[0]), events[1..], e)
  {
  }

  lemma Charged(q: Queue, events: seq<QueueEvent>, x: EntryId)
    requires Valid(q) && events != []
    ensures Overtakes(q, events, x)
         == (if Takes(q, events[0], x) then 1 else 0) + Overtakes(QueueNext(q, events[0]), events[1..], x)
    ensures Readds(events, x) == (if AddsAgain(events[0], x) then 1 else 0) + Readds(events[1..], x)
  {
  }

  /** The plain bound, for one entry over every lawful sequence of queue events. */
  ghost predicate BoundHolds(x: EntryId) {
    forall q, events, e | Valid(q) && x in q.entries && LawfulAdds(q, events) && KeepsWaiting(q, events, e) ::
      Overtakes(q, events, x) <= Ahead(q, x, e)
  }

  lemma {:induction false} OnceIsNotReadded(q: Queue, events: seq<QueueEvent>, x: EntryId)
    requires Valid(q) && x in q.entries && LawfulAdds(q, events) && OnceOnly(x)
    ensures Readds(events, x) == 0
    decreases |events|
  {
    if events != [] {
      QueueKeepsEntries(q, events[0], x);
      OnceIsNotReadded(QueueNext(q, events[0]), events[1..], x);
    }
  }

  // --------------------------------------------------------------- where the bound fails

  /** A waiting entry handed out once, and an issue start handed out never. */
  function Waiting(x: EntryId): OutboxEntry {
    NewEntry(DispatchRun, x.run, 0).(attempts := 1)
  }

  function Pair(x: EntryId, entry: OutboxEntry): Queue {
    Queue([Waiting(x).entryId, x], map[Waiting(x).entryId := Waiting(x), x := entry])
  }

  const OneEach: Drain := Drain(1, 0, 1, {}, id => "claim")

  lemma PairSelects(x: EntryId)
    requires x.effect.IssueStart?
    ensures var q := Pair(x, NewEntry(IssueStart, x.run, 0)); Valid(q) && Selection(q, OneEach) == [x]
  {
    var q := Pair(x, NewEntry(IssueStart, x.run, 0));
    var e := Waiting(x).entryId;
    PairEligible(x);
    assert Eligible(q, OneEach) == [x, e];
    assert [x, e][..1] == [x];
  }

  lemma PairListed(x: EntryId)
    requires x.effect.IssueStart?
    ensures var q, e := Pair(x, NewEntry(IssueStart, x.run, 0)), Waiting(x).entryId;
            && Valid(q) && e != x && q.order == [e, x] && q.order[1..] == [x] && [x][1..] == []
            && Listed([e, x], q.entries) && Listed([x], q.entries)
            && q.entries[x].attempts == 0 && q.entries[e].attempts == 1
            && Due(q.entries[x], 0) && Due(q.entries[e], 0)
  {
  }

  lemma PairSorted(x: EntryId)
    requires x.effect.IssueStart?
    ensures var q, e := Pair(x, NewEntry(IssueStart, x.run, 0)), Waiting(x).entryId;
            Listed([e, x], q.entries) && SortFair([e, x], q.entries) == [x, e]
  {
    PairListed(x);
    var q := Pair(x, NewEntry(IssueStart, x.run, 0));
    assert SortFair([x], q.entries) == [x];
  }

  lemma PairEligible(x: EntryId)
    requires x.effect.IssueStart?
    ensures var q, e := Pair(x, NewEntry(IssueStart, x.run, 0)), Waiting(x).entryId;
            && Valid(q) && ExpiredIn(q.order, q.entries, 0) == []
            && DueIn(q.order, q.entries, 0, {}) == [e, x] && SortFair([e, x], q.entries) == [x, e]
  {
    PairListed(x);
    PairSorted(x);
    var q := Pair(x, NewEntry(IssueStart, x.run, 0));
    assert ExpiredIn([x], q.entries, 0) == [];
    assert DueIn([x], q.entries, 0, {}) == [x];
  }

  /** A drain of one takes the issue start, a commit writes it over: all is as before. */
  lemma TakenAndAddedAgain(x: EntryId)
    requires x.effect.IssueStart?
    ensures var q := Pair(x, NewEntry(IssueStart, x.run, 0));
            && Valid(q) && Selection(q, OneEach) == [x]
            && QueueNext(QueueNext(q, Drained(OneEach)), Added(NewEntry(IssueStart, x.run, 0))) == q
  {
    PairSelects(x);
    var q := Pair(x, NewEntry(IssueStart, x.run, 0));
    assert QueueNext(QueueNext(q, Drained(OneEach)), Added(NewEntry(IssueStart, x.run, 0))).entries == q.entries;
  }

  function Round(x: EntryId): seq<QueueEvent> {
    [Drained(OneEach), Added(NewEntry(IssueStart, x.run, 0))]
  }

  /** Its second half, the write, takes nothing and is lawful. */
  lemma WrittenBack(x: EntryId, claimed: Queue, rest: seq<QueueEvent>)
    requires x.effect.IssueStart? && Valid(claimed)
    requires claimed == QueueNext(Pair(x, NewEntry(IssueStart, x.run, 0)), Drained(OneEach))
    requires QueueNext(claimed, Round(x)[1]) == Pair(x, NewEntry(IssueStart, x.run, 0))
    requires KeepsWaiting(claimed, [], Waiting(x).entryId)
    ensures var q, events := Pair(x, NewEntry(IssueStart, x.run, 0)), [Round(x)[1]] + rest;
            && Valid(q) && Overtakes(claimed, events, x) == Overtakes(q, rest, x)
            && (KeepsWaiting(q, rest, Waiting(x).entryId) ==> KeepsWaiting(claimed, events, Waiting(x).entryId))
            && (LawfulAdds(q, rest) ==> LawfulAdds(claimed, events))
  {
    var events := [Round(x)[1]] + rest;
    assert events[0] == Round(x)[1] && events[1..] == rest;
  }

  /** Each such round hands the issue start out once more. */
  lemma RoundTakes(x: EntryId, rest: seq<QueueEvent>)
    requires x.effect.IssueStart?
    ensures var q := Pair(x, NewEntry(IssueStart, x.run, 0));
            && Valid(q)
            && Overtakes(q, Round(x) + rest, x) == 1 + Overtakes(q, rest, x)
            && (KeepsWaiting(q, rest, Waiting(x).entryId) ==> KeepsWaiting(q, Round(x) + rest, Waiting(x).entryId))
            && (LawfulAdds(q, rest) ==> LawfulAdds(q, Round(x) + rest))
  {
    TakenAndAddedAgain(x);
    var q := Pair(x, NewEntry(IssueStart, x.run, 0));
    var events := Round(x) + rest;
    assert events[0] == Drained(OneEach) && events[1..] == [Round(x)[1]] + rest;
    WrittenBack(x, QueueNext(q, Drained(OneEach)), rest);
  }

  /** An instance: three times ahead of an entry that allows two. */
  lemma IssueStartOvertakes(x: EntryId)
    requires x.effect.IssueStart?
    ensures var q, e := Pair(x, NewEntry(IssueStart, x.run, 0)), Waiting(x).entryId;
            var events := Round(x) + (Round(x) + [Drained(OneEach)]);
            && Valid(q) && x in q.entries && LawfulAdds(q, events) && KeepsWaiting(q, events, e)
            && Overtakes(q, events, x) == 3 && Ahead(q, x, e) == 2
  {
    TakenAndAddedAgain(x);
    var q := Pair(x, NewEntry(IssueStart, x.run, 0));
    var last := [Drained(OneEach)];
    var claimed := QueueNext(q, last[0]);
    assert last[1..] == [];
    assert KeepsWaiting(claimed, [], Waiting(x).entryId) && LawfulAdds(claimed, []) && Overtakes(claimed, [], x) == 0;
    assert KeepsWaiting(q, last, Waiting(x).entryId) && LawfulAdds(q, last) && Overtakes(q, last, x) == 1;
    RoundTakes(x, last);
    RoundTakes(x, Round(x) + last);
  }

  /** Within what commits are limited to, the plain bound holds exactly for entries emitted
      once: an issue start may be written over at any moment. */
  lemma BoundHoldsExactly(x: EntryId)
    ensures BoundHolds(x) <==> OnceOnly(x)
  {
    if OnceOnly(x) {
      forall q, events, e | Valid(q) && x in q.entries && LawfulAdds(q, events) && KeepsWaiting(q, events, e)
        ensures Overtakes(q, events, x) <= Ahead(q, x, e)
      {
        OnceIsNotReadded(q, events, x);
        BoundedOvertaking(q, events, x, e, q.entries[e].attempts);
      }
    } else {
      IssueStartOvertakes(x);
    }
  }
}
