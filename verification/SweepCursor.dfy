/** The bounded sweep over Kubernetes Jobs starts after the last name it attempted,
    so a slow early Job never hides a later one. */
module SweepCursor {

  // ------------------------------------------------------------------------ name order

  /** Names compare by their first difference. */
  predicate Less(a: string, b: string) {
    b != [] && (a == [] || a[0] < b[0] || (a[0] == b[0] && Less(a[1..], b[1..])))
  }

  /** At the first place where they differ `a` has ended, or holds the smaller character. */
  ghost predicate DiffersAt(a: string, b: string, k: int) {
    0 <= k < |b| && k <= |a| && a[..k] == b[..k] && (k == |a| || a[k] < b[k])
  }

  lemma {:induction false} LessByFirstDifference(a: string, b: string)
    ensures Less(a, b) <==> exists k :: DiffersAt(a, b, k)
    decreases |a|
  {
    if a != [] && b != [] && a[0] == b[0] {
      LessByFirstDifference(a[1..], b[1..]);
      forall k | DiffersAt(a[1..], b[1..], k) ensures DiffersAt(a, b, k + 1) {
        assert a[..k + 1] == [a[0]] + a[1..][..k] && b[..k + 1] == [b[0]] + b[1..][..k];
      }
      forall k | DiffersAt(a, b, k) ensures 0 < k && DiffersAt(a[1..], b[1..], k - 1) {
        assert 0 < k;
        assert a[1..][..k - 1] == a[..k][1..] && b[1..][..k - 1] == b[..k][1..];
      }
    } else if a != [] && b != [] {
      assert a[0] < b[0] ==> DiffersAt(a, b, 0);
      assert forall k | 0 < k && k <= |a| && k <= |b| && a[..k] == b[..k] :: a[..k][0] == b[..k][0];
    } else if b != [] {
      assert DiffersAt(a, b, 0);
    }
  }

  lemma {:induction false} LessTotal(a: string, b: string)
    ensures a == b || Less(a, b) || Less(b, a)
    ensures !(Less(a, b) && Less(b, a)) && !Less(a, a)
    decreases |a|
  {
    if a != [] && b != [] {
      LessTotal(a[1..], b[1..]);
      assert a == [a[0]] + a[1..] && b == [b[0]] + b[1..];
    }
    if a != [] { LessTotal(a[1..], a[1..]); }
  }

  lemma {:induction false} LessTransitive(a: string, b: string, c: string)
    requires Less(a, b) && Less(b, c)
    ensures Less(a, c)
    decreases |a|
  {
    if a != [] && a[0] == b[0] && b[0] == c[0] { LessTransitive(a[1..], b[1..], c[1..]); }
  }

  ghost predicate Ascending(names: seq<string>) {
    forall i, j | 0 <= i < j < |names| :: Less(names[i], names[j])
  }

  ghost predicate Unique(names: seq<string>) {
    forall i, j | 0 <= i < j < |names| :: names[i] != names[j]
  }

  // --------------------------------------------------------------------- sort and search

  function Insert(name: string, sorted: seq<string>): (r: seq<string>)
    ensures multiset(r) == multiset(sorted) + multiset{name}
  {
    if sorted == [] || Less(name, sorted[0]) then [name] + sorted
    else
      assert sorted == [sorted[0]] + sorted[1..];
      [sorted[0]] + Insert(name, sorted[1..])
  }

  function Sorted(names: seq<string>): (r: seq<string>)
    ensures multiset(r) == multiset(names)
  {
    if names == [] then []
    else
      assert names == [names[0]] + names[1..];
      Insert(names[0], Sorted(names[1..]))
  }

  lemma {:induction false} InsertAscends(name: string, sorted: seq<string>)
    requires Ascending(sorted) && name !in sorted
    ensures Ascending(Insert(name, sorted))
    decreases |sorted|
  {
    var r := Insert(name, sorted);
    if sorted == [] {
    } else if Less(name, sorted[0]) {
      forall j | 1 <= j < |r| ensures Less(name, r[j]) {
        if j > 1 { LessTransitive(name, sorted[0], sorted[j - 1]); }
      }
    } else {
      LessTotal(name, sorted[0]);
      InsertAscends(name, sorted[1..]);
      var rest := Insert(name, sorted[1..]);
      forall j | 0 <= j < |rest| ensures Less(sorted[0], rest[j]) {
        assert rest[j] in multiset(rest);
        assert rest[j] == name || rest[j] in sorted[1..];
      }
    }
  }

  lemma {:induction false} SortAscends(names: seq<string>)
    requires Unique(names)
    ensures Ascending(Sorted(names))
    decreases |names|
  {
    if names != [] {
      SortAscends(names[1..]);
      assert names[0] !in names[1..];
      assert forall name :: name in Sorted(names[1..]) ==> name in multiset(Sorted(names[1..]));
      InsertAscends(names[0], Sorted(names[1..]));
    }
  }

  /** The first index whose name is after `last`. */
  function SearchAfter(sorted: seq<string>, last: string): (i: nat)
    ensures i <= |sorted|
    ensures forall j | 0 <= j < i :: !Less(last, sorted[j])
    ensures i < |sorted| ==> Less(last, sorted[i])
  {
    if sorted == [] || Less(last, sorted[0]) then 0 else 1 + SearchAfter(sorted[1..], last)
  }

  /** The sorted names, rotated to start after `last`. */
  function Ordered(names: seq<string>, last: string): (r: seq<string>)
    ensures |r| == |names| && multiset(r) == multiset(names)
  {
    var sorted := Sorted(names);
    assert |multiset(sorted)| == |multiset(names)|;
    var found := SearchAfter(sorted, last);
    var start := if found == |sorted| then 0 else found;
    assert sorted == sorted[..start] + sorted[start..];
    sorted[start..] + sorted[..start]
  }

  lemma AscendingFrom(sorted: seq<string>, last: string, start: nat)
    requires Ascending(sorted) && start == SearchAfter(sorted, last)
    ensures forall j | start <= j < |sorted| :: Less(last, sorted[j])
  {
    forall j | start < j < |sorted| ensures Less(last, sorted[j]) { LessTransitive(last, sorted[start], sorted[j]); }
  }

  lemma RotationAscends(sorted: seq<string>, last: string, start: nat)
    requires Ascending(sorted) && start == SearchAfter(sorted, last)
    ensures var r := sorted[start..] + sorted[..start];
            forall i | 0 <= i < |r| - 1 :: Less(r[i], r[i + 1]) || (Less(last, r[i]) && !Less(last, r[i + 1]))
  {
    AscendingFrom(sorted, last, start);
    var r := sorted[start..] + sorted[..start];
    forall i | 0 <= i < |r| - 1
      ensures Less(r[i], r[i + 1]) || (Less(last, r[i]) && !Less(last, r[i + 1]))
    {
      if i < |sorted| - start - 1 {
        assert r[i] == sorted[start + i] && r[i + 1] == sorted[start + i + 1];
      } else if i >= |sorted| - start {
        assert r[i] == sorted[start + i - |sorted|] && r[i + 1] == sorted[start + i + 1 - |sorted|];
      }
    }
  }

  lemma FirstOfRotation(sorted: seq<string>, last: string, found: nat, j: nat)
    requires Ascending(sorted) && found == SearchAfter(sorted, last) && j < |sorted|
    ensures var first := sorted[if found == |sorted| then 0 else found];
            && (Less(last, sorted[j]) ==> found < |sorted| && Less(last, first))
            && (found < |sorted| ==> Less(last, first))
            && ((found < |sorted| ==> Less(last, sorted[j])) ==> sorted[j] == first || Less(first, sorted[j]))
  {
  }

  /** A sweep begins with the next name after `last`, or, when there is none, with the
      least of all. */
  lemma OrderedStartsAfter(names: seq<string>, last: string, name: string)
    requires Unique(names) && name in names
    ensures var first := Ordered(names, last)[0];
            && first in names
            && (Less(last, name) ==> Less(last, first))
            && ((Less(last, first) ==> Less(last, name)) ==> name == first || Less(first, name))
  {
    var sorted := Sorted(names);
    SortAscends(names);
    assert name in multiset(sorted);
    var j :| 0 <= j < |sorted| && sorted[j] == name;
    var found := SearchAfter(sorted, last);
    FirstOfRotation(sorted, last, found, j);
    assert Ordered(names, last)[0] == sorted[if found == |sorted| then 0 else found];
    assert Ordered(names, last)[0] in multiset(names);
  }

  /** From there names ascend, wrapping once. */
  lemma OrderedAscends(names: seq<string>, last: string)
    requires Unique(names)
    ensures var r := Ordered(names, last);
            forall i | 0 <= i < |r| - 1 :: Less(r[i], r[i + 1]) || (Less(last, r[i]) && !Less(last, r[i + 1]))
  {
    var sorted := Sorted(names);
    SortAscends(names);
    var found := SearchAfter(sorted, last);
    RotationAscends(sorted, last, found);
    if found == |sorted| { assert sorted[found..] + sorted[..found] == sorted == sorted[0..] + sorted[..0]; }
  }

  // -------------------------------------------------------------------------- fairness

  /** The cyclic order in which `e` comes last: what follows `e`, then what precedes it. */
  predicate Sooner(e: string, a: string, b: string) {
    if Less(e, a) == Less(e, b) then Less(a, b) else Less(e, a)
  }

  ghost predicate Climbs(e: string, names: seq<string>) {
    forall i, j | 0 <= i < j < |names| :: Sooner(e, names[i], names[j])
  }

  lemma SoonerTransitive(e: string, a: string, b: string, c: string)
    requires Sooner(e, a, b) && Sooner(e, b, c)
    ensures Sooner(e, a, c)
  {
    if Less(e, a) == Less(e, b) && Less(e, b) == Less(e, c) { LessTransitive(a, b, c); }
  }

  lemma SoonerDiffers(e: string, a: string, b: string)
    requires Sooner(e, a, b)
    ensures a != b
  {
    LessTotal(a, b);
  }

  /** Until it reaches `e`, a rotation started after `last` climbs towards `e`, from `last` on. */
  lemma RotationClimbs(sorted: seq<string>, last: string, e: string, start: nat, m: nat)
    requires Ascending(sorted) && start == SearchAfter(sorted, last) && e in sorted
    requires var r := sorted[start..] + sorted[..start]; m <= |r| && e !in r[..m]
    ensures var r := sorted[start..] + sorted[..start];
            Climbs(e, r[..m]) && (last != e ==> forall i | 0 <= i < m :: Sooner(e, last, r[i]))
  {
    var r := sorted[start..] + sorted[..start];
    var k :| 0 <= k < |sorted| && sorted[k] == e;
    AscendingFrom(sorted, last, start);
    LessTotal(last, e);
    forall i | 0 <= i < m ensures Side(sorted, r, start, k, i) && (last != e ==> Sooner(e, last, r[i])) {
      SideOf(sorted, last, start, k, i, m);
    }
    forall i, j | 0 <= i < j < m ensures Sooner(e, r[i], r[j]) {
      assert Side(sorted, r, start, k, i) && Side(sorted, r, start, k, j);
    }
  }

  /** Where the `i`th name of a rotation lies in the sorted list, and on which side of `e`. */
  ghost predicate Side(sorted: seq<string>, r: seq<string>, start: nat, k: nat, i: nat)
    requires k < |sorted| && start <= |sorted| && |r| == |sorted| && i < |r|
  {
    var p := if i < |sorted| - start then start + i else start + i - |sorted|;
    && r[i] == sorted[p] && p != k
    && (Less(sorted[k], r[i]) <==> k < p)
    && (i >= |sorted| - start ==> p < k)
    && (k >= start ==> i < |sorted| - start && p < k)
  }

  lemma SideOf(sorted: seq<string>, last: string, start: nat, k: nat, i: nat, m: nat)
    requires Ascending(sorted) && start == SearchAfter(sorted, last) && k < |sorted|
    requires forall j | start <= j < |sorted| :: Less(last, sorted[j])
    requires i < m <= |sorted| && sorted[k] !in (sorted[start..] + sorted[..start])[..m]
    ensures var r := sorted[start..] + sorted[..start];
            Side(sorted, r, start, k, i) && (last != sorted[k] ==> Sooner(sorted[k], last, r[i]))
  {
    var r := sorted[start..] + sorted[..start];
    var p := if i < |sorted| - start then start + i else start + i - |sorted|;
    var q := if k >= start then k - start else k + |sorted| - start;
    assert r[q] == sorted[k];
    assert forall x | 0 <= x < m :: r[x] == r[..m][x] && r[x] in r[..m];
    assert m <= q;
    assert r[i] == sorted[p];
    LessTotal(sorted[k], sorted[p]);
    LessTotal(last, sorted[k]);
    LessTotal(last, sorted[p]);
  }

  /** One sweep: the Jobs it lists, and how many it attempts before its budget ends. */
  datatype Sweep = Sweep(jobs: seq<string>, attempted: nat)

  ghost predicate Possible(s: Sweep) {
    Unique(s.jobs) && s.attempted <= |s.jobs|
  }

  function Visited(last: string, s: Sweep): seq<string>
    requires s.attempted <= |s.jobs|
  {
    Ordered(s.jobs, last)[..s.attempted]
  }

  function LastOf(last: string, visited: seq<string>): string {
    if visited == [] then last else visited[|visited| - 1]
  }

  ghost function Visits(last: string, sweeps: seq<Sweep>): seq<string>
    requires forall i | 0 <= i < |sweeps| :: Possible(sweeps[i])
    decreases |sweeps|
  {
    if sweeps == [] then []
    else
      assert Possible(sweeps[0]);
      Visited(last, sweeps[0]) + Visits(LastOf(last, Visited(last, sweeps[0])), sweeps[1..])
  }

  lemma OrderedClimbs(names: seq<string>, last: string, e: string, m: nat)
    requires Unique(names) && e in names && m <= |names| && e !in Ordered(names, last)[..m]
    ensures Climbs(e, Ordered(names, last)[..m])
    ensures last != e ==> forall i | 0 <= i < m :: Sooner(e, last, Ordered(names, last)[i])
  {
    var sorted := Sorted(names);
    SortAscends(names);
    assert e in multiset(names);
    assert e in sorted;
    var found := SearchAfter(sorted, last);
    if found == |sorted| {
      assert sorted[found..] + sorted[..found] == sorted == sorted[0..] + sorted[..0];
    }
    RotationClimbs(sorted, last, e, found, m);
  }

  lemma JoinClimbs(e: string, last: string, a: seq<string>, b: seq<string>)
    requires Climbs(e, a) && Climbs(e, b) && e !in a
    requires last != e ==> forall i | 0 <= i < |a| :: Sooner(e, last, a[i])
    requires LastOf(last, a) != e ==> forall i | 0 <= i < |b| :: Sooner(e, LastOf(last, a), b[i])
    ensures Climbs(e, a + b)
    ensures last != e ==> forall i | 0 <= i < |a + b| :: Sooner(e, last, (a + b)[i])
  {
    forall i, j | 0 <= i < |a| && 0 <= j < |b| ensures Sooner(e, a[i], b[j]) {
      if i < |a| - 1 { SoonerTransitive(e, a[i], a[|a| - 1], b[j]); }
    }
    forall j | 0 <= j < |b| && last != e && a != [] ensures Sooner(e, last, b[j]) {
      SoonerTransitive(e, last, a[|a| - 1], b[j]);
    }
  }

  /** While `e` stays listed and unvisited, the names visited climb towards it. */
  lemma {:induction false} VisitsClimb(last: string, sweeps: seq<Sweep>, e: string)
    requires forall i | 0 <= i < |sweeps| :: Possible(sweeps[i]) && e in sweeps[i].jobs
    requires e !in Visits(last, sweeps)
    ensures Climbs(e, Visits(last, sweeps))
    ensures last != e ==> forall i | 0 <= i < |Visits(last, sweeps)| :: Sooner(e, last, Visits(last, sweeps)[i])
    decreases |sweeps|
  {
    if sweeps != [] {
      var visited := Visited(last, sweeps[0]);
      var next := LastOf(last, visited);
      var rest := Visits(next, sweeps[1..]);
      assert Visits(last, sweeps) == visited + rest;
      assert forall x | x in rest :: x in visited + rest;
      assert forall x | x in visited :: x in visited + rest;
      OrderedClimbs(sweeps[0].jobs, last, e, sweeps[0].attempted);
      VisitsClimb(next, sweeps[1..], e);
      JoinClimbs(e, last, visited, rest);
    }
  }

  /** While a Job stays listed, no other name is visited twice before it, whatever
      Jobs are created and deleted meanwhile. */
  lemma NoneTwiceBefore(last: string, sweeps: seq<Sweep>, e: string)
    requires forall i | 0 <= i < |sweeps| :: Possible(sweeps[i]) && e in sweeps[i].jobs
    requires e !in Visits(last, sweeps)
    ensures Unique(Visits(last, sweeps))
  {
    VisitsClimb(last, sweeps, e);
    var visits := Visits(last, sweeps);
    forall i, j | 0 <= i < j < |visits| ensures visits[i] != visits[j] { SoonerDiffers(e, visits[i], visits[j]); }
  }

  lemma {:induction false} UniqueWithin(names: seq<string>, universe: set<string>)
    requires Unique(names) && forall name | name in names :: name in universe
    ensures |names| <= |universe|
    decreases |names|
  {
    if names != [] {
      var last := names[|names| - 1];
      assert last in names;
      assert forall name | name in names[..|names| - 1] :: name in names && name != last;
      UniqueWithin(names[..|names| - 1], universe - {last});
    }
  }

  lemma {:induction false} EachSweepVisits(last: string, sweeps: seq<Sweep>, universe: set<string>)
    requires forall i | 0 <= i < |sweeps| :: Possible(sweeps[i]) && 0 < sweeps[i].attempted
    requires forall i, name | 0 <= i < |sweeps| && name in sweeps[i].jobs :: name in universe
    ensures |sweeps| <= |Visits(last, sweeps)|
    ensures forall name | name in Visits(last, sweeps) :: name in universe
    decreases |sweeps|
  {
    if sweeps != [] {
      var visited := Visited(last, sweeps[0]);
      EachSweepVisits(LastOf(last, visited), sweeps[1..], universe);
      forall name | name in visited ensures name in universe {
        assert name in multiset(Ordered(sweeps[0].jobs, last));
        assert name in sweeps[0].jobs;
      }
    }
  }

  /** If every sweep attempts at least one Job, a Job that stays listed is attempted
      within as many sweeps as there are names. */
  lemma EveryJobIsReached(last: string, sweeps: seq<Sweep>, e: string, universe: set<string>)
    requires forall i | 0 <= i < |sweeps| :: Possible(sweeps[i]) && e in sweeps[i].jobs && 0 < sweeps[i].attempted
    requires forall i, name | 0 <= i < |sweeps| && name in sweeps[i].jobs :: name in universe
    requires |universe| <= |sweeps| && sweeps != []
    ensures e in Visits(last, sweeps)
  {
    if e !in Visits(last, sweeps) {
      NoneTwiceBefore(last, sweeps, e);
      EachSweepVisits(last, sweeps, universe);
      assert e in sweeps[0].jobs;
      UniqueWithin(Visits(last, sweeps), universe - {e});
    }
  }

  // ------------------------------------------------------------------------ the cursor

  class Cursor {
    var last: string

    constructor ()
      ensures last == []
    {
      last := [];
    }

    method Visit(name: string)
      modifies this
      ensures last == name
    {
      last := name;
    }

    /** One budgeted sweep: attempts a prefix of the rotated list, remembering each name. */
    method Run(jobs: seq<string>, budget: nat) returns (visited: seq<string>)
      requires Unique(jobs)
      modifies this
      ensures visited == Visited(old(last), Sweep(jobs, if budget < |jobs| then budget else |jobs|))
      ensures last == LastOf(old(last), visited)
    {
      var order := Ordered(jobs, last);
      visited := [];
      var i := 0;
      while i < |order| && i < budget
        invariant i <= |order| && i <= budget
        invariant visited == order[..i] && last == LastOf(old(last), visited)
      {
        Visit(order[i]);
        visited := visited + [order[i]];
        i := i + 1;
      }
    }
  }
}
