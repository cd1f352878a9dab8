/** The sliding histogram window the console reads, and the latency recorder that
    feeds one: `histogram_window.go` and `work_api_latency.go`. */
module Histograms {

  import opened Model

  // Milliseconds.
  const WINDOW_SPAN := 30 * 60_000
  const SAMPLE_SPACING := 60_000
  const STATUS_INTERVAL := 10_000
  const WINDOW_INTERVALS: nat := 30

  /** `counts[i]` observations lie within `bounds[i]`, and the one extra count is of all. */
  datatype Histogram = Histogram(bounds: seq<real>, counts: seq<int>)

  predicate WellFormed(h: Option<Histogram>) {
    h.Some? ==>
      |h.value.counts| == |h.value.bounds| + 1 && forall i | 0 <= i < |h.value.counts| :: 0 <= h.value.counts[i]
  }

  /** Equal bounds and no smaller count; anything may come after no report. */
  predicate Continues(prev: Option<Histogram>, next: Option<Histogram>)
    requires WellFormed(prev) && WellFormed(next)
  {
    prev.Some? ==>
      && next.Some? && next.value.bounds == prev.value.bounds
      && forall i | 0 <= i < |prev.value.counts| :: prev.value.counts[i] <= next.value.counts[i]
  }

  datatype Snapshot = Snapshot(at: int, hist: Option<Histogram>)

  datatype Interval = Interval(endedAt: int, counts: seq<int>)

  datatype Published = Published(bounds: seq<real>, startedAt: int, intervals: seq<Interval>)

  /** A source that reported nothing has observed nothing. */
  function CountAt(h: Option<Histogram>, j: nat): int {
    if h.Some? && j < |h.value.counts| then h.value.counts[j] else 0
  }

  function Delta(before: Option<Histogram>, after: Option<Histogram>, width: nat): seq<int> {
    seq(width, j requires 0 <= j => CountAt(after, j) - CountAt(before, j))
  }

  /** The sample continues the counters of the `i`th snapshot. */
  ghost predicate ContinuedBy(snapshots: seq<Snapshot>, i: nat, hist: Option<Histogram>)
    requires i < |snapshots|
  {
    WellFormed(snapshots[i].hist) && WellFormed(hist) && Continues(snapshots[i].hist, hist)
  }

  /** Recorded on one run of the counters. */
  ghost predicate Chained(snapshots: seq<Snapshot>) {
    forall i, j {:trigger ContinuedBy(snapshots, i, snapshots[j].hist)} | 0 <= i <= j < |snapshots| ::
      ContinuedBy(snapshots, i, snapshots[j].hist)
  }

  ghost predicate Precedes(snapshots: seq<Snapshot>, i: nat, j: nat)
    requires i < j < |snapshots|
  {
    snapshots[i].at < snapshots[j].at
  }

  ghost predicate Increasing(snapshots: seq<Snapshot>) {
    forall i, j {:trigger Precedes(snapshots, i, j)} | 0 <= i < j < |snapshots| :: Precedes(snapshots, i, j)
  }

  /** The sum of one bucket over the intervals. */
  function BucketSum(intervals: seq<Interval>, j: nat): int
    requires forall i | 0 <= i < |intervals| :: j < |intervals[i].counts|
  {
    if intervals == [] then 0
    else BucketSum(intervals[..|intervals| - 1], j) + intervals[|intervals| - 1].counts[j]
  }

  /** The window published from recorded snapshots. */
  function Intervals(snapshots: seq<Snapshot>, width: nat): seq<Interval> {
    if |snapshots| < 2 then []
    else
      var n := |snapshots|;
      Intervals(snapshots[..n - 1], width)
      + [Interval(snapshots[n - 1].at, Delta(snapshots[n - 2].hist, snapshots[n - 1].hist, width))]
  }

  lemma {:induction false} IntervalsCount(snapshots: seq<Snapshot>, width: nat)
    ensures |Intervals(snapshots, width)| == if snapshots == [] then 0 else |snapshots| - 1
    ensures forall i | 0 <= i < |Intervals(snapshots, width)| ::
              && Intervals(snapshots, width)[i].endedAt == snapshots[i + 1].at
              && Intervals(snapshots, width)[i].counts == Delta(snapshots[i].hist, snapshots[i + 1].hist, width)
    decreases |snapshots|
  {
    if |snapshots| >= 2 { IntervalsCount(snapshots[..|snapshots| - 1], width); }
  }

  /** Per bucket the intervals telescope to the latest snapshot minus the oldest. */
  lemma {:induction false} Telescopes(snapshots: seq<Snapshot>, width: nat, j: nat)
    requires snapshots != [] && j < width
    ensures forall i | 0 <= i < |Intervals(snapshots, width)| :: j < |Intervals(snapshots, width)[i].counts|
    ensures BucketSum(Intervals(snapshots, width), j)
         == CountAt(snapshots[|snapshots| - 1].hist, j) - CountAt(snapshots[0].hist, j)
    decreases |snapshots|
  {
    IntervalsCount(snapshots, width);
    if |snapshots| >= 2 {
      var n := |snapshots|;
      var all := Intervals(snapshots, width);
      Telescopes(snapshots[..n - 1], width, j);
      assert all[..|all| - 1] == Intervals(snapshots[..n - 1], width);
    }
  }

  /** No interval has a negative count, and all are of one width. */
  lemma NeverNegative(snapshots: seq<Snapshot>, width: nat)
    requires Chained(snapshots)
    requires forall i | 0 <= i < |snapshots| && snapshots[i].hist.Some? :: |snapshots[i].hist.value.counts| == width
    ensures forall i | 0 <= i < |Intervals(snapshots, width)| :: GoodInterval(Intervals(snapshots, width)[i], width)
  {
    IntervalsCount(snapshots, width);
    forall i | 0 <= i < |Intervals(snapshots, width)| ensures GoodInterval(Intervals(snapshots, width)[i], width) {
      assert ContinuedBy(snapshots, i, snapshots[i + 1].hist);
    }
  }

  lemma ContinuesTransitive(a: Option<Histogram>, b: Option<Histogram>, c: Option<Histogram>)
    requires WellFormed(a) && WellFormed(b) && WellFormed(c) && Continues(a, b) && Continues(b, c)
    ensures Continues(a, c)
  {
  }

  /** Recorded snapshots on one run of the counters, up to the last sample. */
  ghost predicate Recorded(snapshots: seq<Snapshot>, last: Option<Histogram>) {
    && WellFormed(last) && Chained(snapshots)
    && (forall i | 0 <= i < |snapshots| :: ContinuedBy(snapshots, i, last))
    && |snapshots| <= WINDOW_INTERVALS + 1
  }

  /** A sample that continues the last one continues every recorded snapshot. */
  lemma SampleContinues(snapshots: seq<Snapshot>, last: Option<Histogram>, hist: Option<Histogram>)
    requires Recorded(snapshots, last) && WellFormed(hist) && Continues(last, hist)
    ensures forall i | 0 <= i < |snapshots| :: ContinuedBy(snapshots, i, hist)
  {
    forall i | 0 <= i < |snapshots| ensures ContinuedBy(snapshots, i, hist) {
      assert ContinuedBy(snapshots, i, last);
      ContinuesTransitive(snapshots[i].hist, last, hist);
    }
  }

  /** And may join the chain. */
  lemma ChainGrows(snapshots: seq<Snapshot>, next: Snapshot)
    requires Chained(snapshots) && WellFormed(next.hist)
    requires forall i | 0 <= i < |snapshots| :: ContinuedBy(snapshots, i, next.hist)
    ensures Chained(snapshots + [next])
  {
    var grown := snapshots + [next];
    forall i, j | 0 <= i <= j < |grown| ensures ContinuedBy(grown, i, grown[j].hist) {
      if j < |snapshots| {
        assert ContinuedBy(snapshots, i, snapshots[j].hist);
      } else if i < |snapshots| {
        assert ContinuedBy(snapshots, i, next.hist);
      }
    }
  }

  predicate Records(kept: seq<Snapshot>, now: int) {
    kept == [] || now - kept[|kept| - 1].at >= SAMPLE_SPACING - STATUS_INTERVAL / 2
  }

  /** The snapshots after a sample: kept, or joined by it and trimmed together. */
  function Next(kept: seq<Snapshot>, now: int, hist: Option<Histogram>): seq<Snapshot> {
    if Records(kept, now) then Trimmed(kept + [Snapshot(now, hist)], now - WINDOW_SPAN) else kept
  }

  lemma SuffixChained(snapshots: seq<Snapshot>, suffix: seq<Snapshot>)
    requires Chained(snapshots) && |suffix| <= |snapshots| && suffix == snapshots[|snapshots| - |suffix|..]
    ensures Chained(suffix)
  {
    var n := |snapshots| - |suffix|;
    forall i, j | 0 <= i <= j < |suffix| ensures ContinuedBy(suffix, i, suffix[j].hist) {
      assert ContinuedBy(snapshots, n + i, snapshots[n + j].hist);
    }
  }

  lemma SuffixRecorded(grown: seq<Snapshot>, suffix: seq<Snapshot>, hist: Option<Histogram>)
    requires Chained(grown) && grown != [] && grown[|grown| - 1].hist == hist
    requires 1 <= |suffix| <= |grown| && suffix == grown[|grown| - |suffix|..] && |suffix| <= WINDOW_INTERVALS + 1
    ensures Recorded(suffix, hist)
  {
    SuffixChained(grown, suffix);
    assert suffix[|suffix| - 1] == grown[|grown| - 1];
    forall i | 0 <= i < |suffix| ensures ContinuedBy(suffix, i, hist) {
      assert ContinuedBy(suffix, i, suffix[|suffix| - 1].hist);
    }
    assert ContinuedBy(suffix, 0, hist);
  }

  lemma GrowthIncreases(kept: seq<Snapshot>, now: int, hist: Option<Histogram>)
    requires Increasing(kept) && Records(kept, now)
    ensures Increasing(kept + [Snapshot(now, hist)])
  {
    var grown := kept + [Snapshot(now, hist)];
    forall i, j | 0 <= i < j < |grown| ensures Precedes(grown, i, j) {
      if j < |kept| {
        assert Precedes(kept, i, j);
      } else if i < |kept| - 1 {
        assert Precedes(kept, i, |kept| - 1);
      }
    }
  }

  lemma NextRecorded(kept: seq<Snapshot>, last: Option<Histogram>, now: int, hist: Option<Histogram>)
    requires Recorded(kept, last) && WellFormed(hist) && (kept != [] ==> Continues(last, hist))
    ensures Recorded(Next(kept, now, hist), hist) && Next(kept, now, hist) != []
  {
    if kept != [] { SampleContinues(kept, last, hist); }
    if Records(kept, now) {
      ChainGrows(kept, Snapshot(now, hist));
      SuffixRecorded(kept + [Snapshot(now, hist)], Next(kept, now, hist), hist);
    }
  }

  lemma SuffixIncreases(snapshots: seq<Snapshot>, suffix: seq<Snapshot>)
    requires Increasing(snapshots) && |suffix| <= |snapshots| && suffix == snapshots[|snapshots| - |suffix|..]
    ensures Increasing(suffix)
  {
    var n := |snapshots| - |suffix|;
    forall i, j | 0 <= i < j < |suffix| ensures Precedes(suffix, i, j) {
      assert Precedes(snapshots, n + i, n + j);
    }
  }

  /** Snapshot times only grow. */
  lemma NextIncreases(kept: seq<Snapshot>, now: int, hist: Option<Histogram>)
    requires Increasing(kept)
    ensures Increasing(Next(kept, now, hist))
  {
    if Records(kept, now) {
      GrowthIncreases(kept, now, hist);
      SuffixIncreases(kept + [Snapshot(now, hist)], Next(kept, now, hist));
    }
  }

  /** Must the window start again at this sample? */
  predicate Restarts(last: Option<Histogram>, lastAt: Option<int>, now: int, hist: Option<Histogram>)
    requires WellFormed(last) && WellFormed(hist)
  {
    lastAt.Some? && (now - lastAt.value > 2 * SAMPLE_SPACING || !Continues(last, hist))
  }

  lemma KeptRecorded(snapshots: seq<Snapshot>, last: Option<Histogram>, lastAt: Option<int>, now: int,
                     hist: Option<Histogram>)
    requires Recorded(snapshots, last) && WellFormed(hist) && (lastAt.None? ==> snapshots == [])
    ensures var next := Next(if Restarts(last, lastAt, now, hist) then [] else snapshots, now, hist);
            Recorded(next, hist) && next != [] && (Increasing(snapshots) ==> Increasing(next))
  {
    var kept := if Restarts(last, lastAt, now, hist) then [] else snapshots;
    NextRecorded(kept, last, now, hist);
    if Increasing(kept) { NextIncreases(kept, now, hist); }
  }

  class HistogramWindow {
    var snapshots: seq<Snapshot>
    var last: Option<Histogram>
    var lastAt: Option<int>

    ghost predicate Valid()
      reads this
    {
      && Recorded(snapshots, last) && Increasing(snapshots)
      && (lastAt.None? <==> snapshots == []) && (lastAt.None? ==> last.None?)
    }

    constructor ()
      ensures Valid() && lastAt.None?
    {
      snapshots, last, lastAt := [], None, None;
    }

    method Reset()
      modifies this
      ensures Valid() && snapshots == [] && lastAt.None?
    {
      snapshots, last, lastAt := [], None, None;
    }

    /** The snapshots that survive to this sample. */
    function Kept(now: int, hist: Option<Histogram>): seq<Snapshot>
      reads this
      requires Valid() && WellFormed(hist)
    {
      if Restarts(last, lastAt, now, hist) then [] else snapshots
    }

    method Record(now: int, hist: Option<Histogram>)
      requires Valid() && WellFormed(hist)
      modifies this
      ensures Valid() && last == hist && lastAt == Some(now)
      ensures snapshots == Next(old(Kept(now, hist)), now, hist)
    {
      KeptRecorded(snapshots, last, lastAt, now, hist);
      snapshots := Kept(now, hist);
      last, lastAt := hist, Some(now);
      if Records(snapshots, now) { snapshots := Trim(snapshots + [Snapshot(now, hist)], now - WINDOW_SPAN); }
    }

    /** Record a sample; publish the window of what is recorded, if there is one. */
    method Observe(now: int, hist: Option<Histogram>) returns (published: Option<Published>)
      requires Valid() && WellFormed(hist)
      modifies this
      ensures Valid() && last == hist && lastAt == Some(now)
      ensures snapshots == Next(old(Kept(now, hist)), now, hist)
      ensures published == Publish(snapshots) && (published.Some? ==> GoodWindow(published.value))
    {
      Record(now, hist);
      PublishedIsGood(snapshots);
      published := PublishWindow(snapshots);
    }
  }

  /** Drop the oldest snapshots: those before the window, and those past its bound. */
  function Trimmed(snapshots: seq<Snapshot>, cutoff: int): (r: seq<Snapshot>)
    ensures |r| <= |snapshots| && r == snapshots[|snapshots| - |r|..]
    ensures snapshots != [] ==> r != []
    ensures |r| <= WINDOW_INTERVALS + 1
    ensures |r| > 1 ==> cutoff < r[1].at
  {
    if |snapshots| > 1 && (snapshots[1].at <= cutoff || |snapshots| > WINDOW_INTERVALS + 1)
    then Trimmed(snapshots[1..], cutoff) else snapshots
  }

  /** `end` is the longest end of the snapshots that has at most thirty-one of them and whose
      first interval ends after the cutoff. */
  ghost predicate LongestEnd(snapshots: seq<Snapshot>, end: seq<Snapshot>, cutoff: int) {
    && |end| <= |snapshots| && 1 <= |end| <= 31 && end == snapshots[|snapshots| - |end|..]
    && (|end| > 1 ==> cutoff < end[1].at)
    && (|end| < |snapshots| ==> 31 <= |end| || snapshots[|snapshots| - |end|].at <= cutoff)
  }

  /** Trimming stops as soon as it may. */
  lemma {:induction false} TrimmedIsLongest(snapshots: seq<Snapshot>, cutoff: int)
    requires snapshots != []
    ensures LongestEnd(snapshots, Trimmed(snapshots, cutoff), cutoff)
    decreases |snapshots|
  {
    if Trimmed(snapshots, cutoff) != snapshots { TrimmedIsLongest(snapshots[1..], cutoff); }
  }

  /** A window starts again exactly after more than two minutes without a sample, or at one
      that does not continue the last: no report, other bounds, or a smaller count. */
  lemma RestartsExactly(last: Option<Histogram>, lastAt: Option<int>, now: int, hist: Option<Histogram>)
    requires WellFormed(last) && WellFormed(hist)
    ensures Restarts(last, lastAt, now, hist) <==>
              && lastAt.Some?
              && (|| 120_000 < now - lastAt.value
                  || (last.Some? && hist.None?)
                  || (last.Some? && last.value.bounds != hist.value.bounds)
                  || (last.Some? && exists i :: 0 <= i < |last.value.counts| && CountAt(hist, i) < CountAt(last, i)))
  {
    if last.Some? && hist.Some? && last.value.bounds == hist.value.bounds {
      assert |last.value.counts| == |hist.value.counts|;
      assert forall i | 0 <= i < |last.value.counts| ::
        CountAt(hist, i) < CountAt(last, i) <==> !(last.value.counts[i] <= hist.value.counts[i]);
    }
  }

  /** A sample within fifty-five seconds of the last snapshot adds none. Any other is added,
      and the window is then its longest end of at most thirty-one snapshots whose first
      interval ends within the last thirty minutes. */
  lemma NextIsLongest(kept: seq<Snapshot>, now: int, hist: Option<Histogram>)
    ensures var next := Next(kept, now, hist);
            if kept != [] && now < kept[|kept| - 1].at + 55_000 then next == kept
            else LongestEnd(kept + [Snapshot(now, hist)], next, now - 1_800_000)
  {
    TrimmedIsLongest(kept + [Snapshot(now, hist)], now - WINDOW_SPAN);
  }

  method Trim(given: seq<Snapshot>, cutoff: int) returns (snapshots: seq<Snapshot>)
    ensures snapshots == Trimmed(given, cutoff)
  {
    snapshots := given;
    while |snapshots| > 1 && (snapshots[1].at <= cutoff || |snapshots| > WINDOW_INTERVALS + 1)
      invariant Trimmed(snapshots, cutoff) == Trimmed(given, cutoff)
      decreases |snapshots|
    {
      snapshots := snapshots[1..];
    }
  }

  function Publish(snapshots: seq<Snapshot>): Option<Published> {
    if |snapshots| < 2 || snapshots[|snapshots| - 1].hist.None? then None
    else
      var latest := snapshots[|snapshots| - 1].hist.value;
      Some(Published(latest.bounds, snapshots[0].at, Intervals(snapshots, |latest.counts|)))
  }

  /** One to thirty intervals, one after the other since the window began, each as wide as
      the bounds ask, none negative. */
  ghost predicate GoodWindow(w: Published) {
    && 1 <= |w.intervals| <= WINDOW_INTERVALS
    && w.startedAt < w.intervals[0].endedAt
    && (forall i, j | 0 <= i < j < |w.intervals| :: w.intervals[i].endedAt < w.intervals[j].endedAt)
    && forall i | 0 <= i < |w.intervals| :: GoodInterval(w.intervals[i], |w.bounds| + 1)
  }

  ghost predicate GoodInterval(interval: Interval, width: nat) {
    |interval.counts| == width && forall j | 0 <= j < width :: 0 <= interval.counts[j]
  }

  lemma IntervalsFollow(snapshots: seq<Snapshot>, width: nat)
    requires Increasing(snapshots)
    ensures var intervals := Intervals(snapshots, width);
            && |intervals| == (if snapshots == [] then 0 else |snapshots| - 1)
            && (intervals != [] ==> snapshots[0].at < intervals[0].endedAt)
            && forall i, j | 0 <= i < j < |intervals| :: intervals[i].endedAt < intervals[j].endedAt
  {
    IntervalsCount(snapshots, width);
    if |snapshots| >= 2 { assert Precedes(snapshots, 0, 1); }
    forall i, j | 0 <= i < j < |Intervals(snapshots, width)|
      ensures Intervals(snapshots, width)[i].endedAt < Intervals(snapshots, width)[j].endedAt
    {
      assert Precedes(snapshots, i + 1, j + 1);
    }
  }

  lemma PublishedIsGood(snapshots: seq<Snapshot>)
    requires Chained(snapshots) && Increasing(snapshots) && |snapshots| <= WINDOW_INTERVALS + 1
    ensures Publish(snapshots).Some? ==> GoodWindow(Publish(snapshots).value)
  {
    if Publish(snapshots).Some? {
      var latest := snapshots[|snapshots| - 1].hist;
      var width := |latest.value.counts|;
      forall i | 0 <= i < |snapshots| && snapshots[i].hist.Some? ensures |snapshots[i].hist.value.counts| == width {
        assert ContinuedBy(snapshots, i, latest);
      }
      assert ContinuedBy(snapshots, |snapshots| - 1, latest);
      IntervalsFollow(snapshots, width);
      NeverNegative(snapshots, width);
    }
  }

  method PublishWindow(snapshots: seq<Snapshot>) returns (published: Option<Published>)
    requires Chained(snapshots)
    ensures published == Publish(snapshots)
  {
    if |snapshots| < 2 || snapshots[|snapshots| - 1].hist.None? { return None; }
    var latest := snapshots[|snapshots| - 1].hist.value;
    var width := |latest.counts|;
    var intervals: seq<Interval> := [];
    for i := 1 to |snapshots|
      invariant intervals == Intervals(snapshots[..i], width)
    {
      var before, after := snapshots[i - 1].hist, snapshots[i].hist;
      var counts: seq<int> := [];
      assert ContinuedBy(snapshots, i - 1, after) && ContinuedBy(snapshots, i, snapshots[|snapshots| - 1].hist);
      for j := 0 to width
        invariant counts == Delta(before, after, j)
      {
        var count := 0;
        if after.Some? {
          count := after.value.counts[j];
          if before.Some? { count := count - before.value.counts[j]; }
        }
        counts := counts + [count];
      }
      assert snapshots[..i + 1][..i] == snapshots[..i];
      intervals := intervals + [Interval(snapshots[i].at, counts)];
    }
    assert snapshots[..|snapshots|] == snapshots;
    published := Some(Published(latest.bounds, snapshots[0].at, intervals));
  }

  // ------------------------------------------------------------------ latency recorder

  ghost predicate Ascending(bounds: seq<real>) {
    forall i, j | 0 <= i < j < |bounds| :: bounds[i] < bounds[j]
  }

  /** The `i`th bucket's bound covers the duration; the last bucket has none. */
  predicate Within(bounds: seq<real>, d: real, i: nat)
    requires i <= |bounds|
  {
    i == |bounds| || d <= bounds[i]
  }

  /** The bucket a duration is counted in: the first whose bound covers it. */
  predicate InBucket(bounds: seq<real>, d: real, b: nat)
    requires b <= |bounds|
  {
    Within(bounds, d, b) && forall i | 0 <= i < b :: !Within(bounds, d, i)
  }

  function CountIn(bounds: seq<real>, recorded: seq<real>, b: nat): nat
    requires b <= |bounds|
  {
    if recorded == [] then 0
    else CountIn(bounds, recorded[..|recorded| - 1], b)
         + (if InBucket(bounds, recorded[|recorded| - 1], b) then 1 else 0)
  }

  /** How many durations a bucket's bound covers. */
  function CountWithin(bounds: seq<real>, recorded: seq<real>, i: nat): nat
    requires i <= |bounds|
  {
    if recorded == [] then 0
    else CountWithin(bounds, recorded[..|recorded| - 1], i)
         + (if Within(bounds, recorded[|recorded| - 1], i) then 1 else 0)
  }

  /** What a recorder reports: cumulative over all it recorded. */
  function HistogramOf(bounds: seq<real>, recorded: seq<real>): Histogram {
    Histogram(bounds, seq(|bounds| + 1, i requires 0 <= i <= |bounds| => CountWithin(bounds, recorded, i)))
  }

  /** A duration within a bound is in that bucket or an earlier one. */
  lemma {:induction false} RunningSum(bounds: seq<real>, recorded: seq<real>, i: nat)
    requires Ascending(bounds) && i < |bounds|
    ensures CountWithin(bounds, recorded, i + 1) == CountWithin(bounds, recorded, i) + CountIn(bounds, recorded, i + 1)
    decreases |recorded|
  {
    if recorded != [] {
      var d := recorded[|recorded| - 1];
      RunningSum(bounds, recorded[..|recorded| - 1], i);
      assert Within(bounds, d, i) ==> Within(bounds, d, i + 1);
      assert InBucket(bounds, d, i + 1) <==> Within(bounds, d, i + 1) && !Within(bounds, d, i) by {
        assert forall k | 0 <= k < i :: Within(bounds, d, k) ==> Within(bounds, d, i);
      }
    }
  }

  lemma {:induction false} FirstBucket(bounds: seq<real>, recorded: seq<real>)
    ensures CountWithin(bounds, recorded, 0) == CountIn(bounds, recorded, 0)
    decreases |recorded|
  {
    if recorded != [] {
      FirstBucket(bounds, recorded[..|recorded| - 1]);
      assert InBucket(bounds, recorded[|recorded| - 1], 0) <==> Within(bounds, recorded[|recorded| - 1], 0);
    }
  }

  lemma {:induction false} CountJoins(bounds: seq<real>, a: seq<real>, b: seq<real>, i: nat)
    requires i <= |bounds|
    ensures CountWithin(bounds, a + b, i) == CountWithin(bounds, a, i) + CountWithin(bounds, b, i)
    decreases |b|
  {
    if b == [] {
      assert a + b == a;
    } else {
      assert (a + b)[..|a + b| - 1] == a + b[..|b| - 1];
      CountJoins(bounds, a, b[..|b| - 1], i);
    }
  }

  lemma {:induction false} CountMonotone(bounds: seq<real>, recorded: seq<real>, i: nat, j: nat)
    requires Ascending(bounds) && i <= j <= |bounds|
    ensures CountWithin(bounds, recorded, i) <= CountWithin(bounds, recorded, j)
    decreases |recorded|
  {
    if recorded != [] { CountMonotone(bounds, recorded[..|recorded| - 1], i, j); }
  }

  /** Fed by the recorder, an interval is cumulative and counts exactly the durations
      recorded between its two snapshots; no sample of it ever restarts a window. */
  lemma RecorderIntervals(bounds: seq<real>, earlier: seq<real>, between: seq<real>)
    requires Ascending(bounds)
    ensures var before, after := Some(HistogramOf(bounds, earlier)), Some(HistogramOf(bounds, earlier + between));
            && WellFormed(before) && WellFormed(after) && Continues(before, after)
            && Delta(before, after, |bounds| + 1) == HistogramOf(bounds, between).counts
            && forall i, j | 0 <= i <= j <= |bounds| ::
                 HistogramOf(bounds, between).counts[i] <= HistogramOf(bounds, between).counts[j]
  {
    forall i | 0 <= i <= |bounds|
      ensures CountWithin(bounds, earlier + between, i)
           == CountWithin(bounds, earlier, i) + CountWithin(bounds, between, i)
    {
      CountJoins(bounds, earlier, between, i);
    }
    forall i, j | 0 <= i <= j <= |bounds|
      ensures CountWithin(bounds, between, i) <= CountWithin(bounds, between, j)
    {
      CountMonotone(bounds, between, i, j);
    }
  }

  class LatencyRecorder {
    const bounds: seq<real>
    // `counts[b]` durations have `b` as their first covering bucket.
    const counts: array<int>
    ghost var recorded: seq<real>

    ghost predicate Valid()
      reads this, counts
    {
      && Ascending(bounds) && counts.Length == |bounds| + 1
      && forall b | 0 <= b <= |bounds| :: counts[b] == CountIn(bounds, recorded, b)
    }

    constructor (bounds: seq<real>)
      requires Ascending(bounds)
      ensures Valid() && this.bounds == bounds && recorded == [] && fresh(counts)
    {
      this.bounds := bounds;
      counts := new int[|bounds| + 1](_ => 0);
      recorded := [];
    }

    method Record(seconds: real)
      requires Valid()
      modifies this, counts
      ensures Valid() && recorded == old(recorded) + [seconds]
    {
      var bucket := |bounds|;
      for i := 0 to |bounds|
        invariant bucket == |bounds|
        invariant forall k | 0 <= k < i :: !Within(bounds, seconds, k)
      {
        if seconds <= bounds[i] {
          bucket := i;
          break;
        }
      }
      OneBucket(bounds, seconds, bucket);
      counts[bucket] := counts[bucket] + 1;
      recorded := recorded + [seconds];
      assert recorded[..|recorded| - 1] == old(recorded);
    }

    /** Running sums of the buckets. */
    method Report() returns (h: Histogram)
      requires Valid()
      ensures h == HistogramOf(bounds, recorded)
    {
      var cumulative: seq<int> := [];
      var sum := 0;
      for i := 0 to counts.Length
        invariant |cumulative| == i
        invariant forall k | 0 <= k < i :: cumulative[k] == CountWithin(bounds, recorded, k)
        invariant sum == if i == 0 then 0 else CountWithin(bounds, recorded, i - 1)
      {
        if i == 0 { FirstBucket(bounds, recorded); } else { RunningSum(bounds, recorded, i - 1); }
        sum := sum + counts[i];
        cumulative := cumulative + [sum];
      }
      h := Histogram(bounds, cumulative);
    }
  }

  lemma OneBucket(bounds: seq<real>, d: real, bucket: nat)
    requires bucket <= |bounds| && InBucket(bounds, d, bucket)
    ensures forall b | 0 <= b <= |bounds| :: InBucket(bounds, d, b) <==> b == bucket
  {
  }
}
