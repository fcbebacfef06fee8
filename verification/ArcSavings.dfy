/** What saving one snapshot makes of every row of the hourly arc tables. */
module ArcSavings {
  import opened Basics
  import opened Seqs
  import opened LeastSquares
  import opened Buckets
  import opened Domain
  import opened ArcTables

  /** The hour that starts at `hour` holds the instant. */
  predicate HourHolds(hour: Time, t: Time) {
    hour % HOUR == 0 && hour <= t < hour + HOUR
  }

  predicate InStagnationCell(s: Snapshot, r: RouteScore, k: StagnationCell) {
    && r.stagnationScore.Some? && HourHolds(k.hourStart, s.windowStart) && k.routeId == r.routeId
    && k.bucket == Bucket(r.stagnationScore.value) && k.sameSensorFlow == r.sameSensorFlow
  }

  /** Flow counts both directions; without any there is no dwell. */
  predicate InFlowDwellCell(s: Snapshot, r: RouteScore, k: FlowDwellCell) {
    && r.stagnationScore.Some? && HourHolds(k.hourStart, s.windowStart) && k.routeId == r.routeId
    && k.flowBucket == Bucket(FlowOf(r))
    && k.dwellBucket == if FlowOf(r) > 0.0 then Some(Bucket(r.stagnationScore.value / FlowOf(r))) else None
  }

  /** People who passed in either direction, per minute. */
  function FlowOf(r: RouteScore): real {
    r.forward + r.backward
  }

  function StagnationOf(r: RouteScore): real {
    r.stagnationScore.GetOr(0.0)
  }

  function FlowSquared(r: RouteScore): real {
    FlowOf(r) * FlowOf(r)
  }

  function FlowTimesStagnation(r: RouteScore): real {
    FlowOf(r) * StagnationOf(r)
  }

  /** A row that sums up what it did before and the scores of one more snapshot. */
  function RowWith(was: Option<StagnationRow>, s: Snapshot, scores: seq<RouteScore>): StagnationRow {
    var row := was.GetOr(StagnationRow(Sums(0, 0.0, 0.0, 0.0, 0.0), s.windowStart, s.windowEnd));
    StagnationRow(
      Sums(row.sums.n + |scores|,
           row.sums.x + Sum(Map(scores, FlowOf)),
           row.sums.y + Sum(Map(scores, StagnationOf)),
           row.sums.xx + Sum(Map(scores, FlowSquared)),
           row.sums.xy + Sum(Map(scores, FlowTimesStagnation))),
      if row.firstStart < s.windowStart then row.firstStart else s.windowStart,
      if row.lastEnd > s.windowEnd then row.lastEnd else s.windowEnd)
  }

  function CountWith(was: Option<FlowDwellRow>, s: Snapshot, scores: seq<RouteScore>): FlowDwellRow {
    var row := was.GetOr(FlowDwellRow(0, s.windowStart, s.windowEnd));
    FlowDwellRow(
      row.sampleCount + |scores|,
      if row.firstStart < s.windowStart then row.firstStart else s.windowStart,
      if row.lastEnd > s.windowEnd then row.lastEnd else s.windowEnd)
  }

  function RowAt<K, R>(table: map<K, R>, k: K): Option<R> {
    if k in table then Some(table[k]) else None
  }

  /** The row of a cell also sums up the scores with stagnation that fall into the cell; a row into which
      none falls stays as it was. */
  ghost predicate StagnationGrows(before: map<StagnationCell, StagnationRow>,
      after: map<StagnationCell, StagnationRow>, s: Snapshot, k: StagnationCell)
  {
    var scores := Filter(s.routeScores, (r: RouteScore) => InStagnationCell(s, r, k));
    RowAt(after, k) == if |scores| == 0 then RowAt(before, k) else Some(RowWith(RowAt(before, k), s, scores))
  }

  ghost predicate FlowDwellGrows(before: map<FlowDwellCell, FlowDwellRow>, after: map<FlowDwellCell, FlowDwellRow>,
      s: Snapshot, k: FlowDwellCell)
  {
    var scores := Filter(s.routeScores, (r: RouteScore) => InFlowDwellCell(s, r, k));
    RowAt(after, k) == if |scores| == 0 then RowAt(before, k) else Some(CountWith(RowAt(before, k), s, scores))
  }

  lemma {:induction false} HourIs(hour: Time, t: Time)
    ensures hour == HourStart(t) <==> HourHolds(hour, t)
  {
    var d, h := t / HOUR, hour / HOUR;
    assert t == d * HOUR + t % HOUR && hour == h * HOUR + hour % HOUR;
    if HourHolds(hour, t) {
      assert h <= d < h + 1;
    }
  }

  /** The members that are picked and kept are those that meet both conditions. */
  lemma {:induction false} PickedGroup<T(!new), U>(s: seq<T>, f: T -> Option<U>, p: U -> bool, q: T -> bool,
      g: T -> U)
    requires forall x :: q(x) <==> f(x).Some? && p(f(x).value)
    requires forall x :: q(x) ==> f(x) == Some(g(x))
    ensures Filter(FilterMap(s, f), p) == Map(Filter(s, q), g)
  {
    if |s| > 0 {
      var rest, l := s[..|s| - 1], s[|s| - 1];
      assert s == rest + [l];
      PickedGroup(rest, f, p, q, g);
      FilterMapAppend(rest, l, f);
      FilterAppend(rest, l, q);
      if f(l).Some? {
        FilterAppend(FilterMap(rest, f), f(l).value, p);
      }
      if q(l) {
        MapConcat(Filter(rest, q), [l], g);
      }
    }
  }

  /** Running sums are the sums of what they are of. */
  lemma {:induction false} SumsAre<T(!new)>(s: seq<T>, point: T -> Sample, x: T -> real, y: T -> real, xx: T -> real,
      xy: T -> real)
    requires forall r: Sums, t :: Adds(r, point(t), x(t), y(t), xx(t), xy(t))
    ensures SumsOf(Map(s, point)) ==
            Sums(|s|, Sum(Map(s, x)), Sum(Map(s, y)), Sum(Map(s, xx)), Sum(Map(s, xy)))
  {
    if |s| > 0 {
      var rest, l := s[..|s| - 1], s[|s| - 1];
      SumsAre(rest, point, x, y, xx, xy);
      assert Map(s, point)[..|rest|] == Map(rest, point);
      assert Map(s, x)[..|rest|] == Map(rest, x) && Map(s, y)[..|rest|] == Map(rest, y);
      assert Map(s, xx)[..|rest|] == Map(rest, xx) && Map(s, xy)[..|rest|] == Map(rest, xy);
      assert Adds(SumsOf(Map(rest, point)), point(l), x(l), y(l), xx(l), xy(l));
      hide Sums.Add;
    }
  }

  predicate Adds(r: Sums, p: Sample, x: real, y: real, xx: real, xy: real) {
    r.Add(p) == Sums(r.n + 1, r.x + x, r.y + y, r.xx + xx, r.xy + xy)
  }

  lemma {:induction false} AddsProducts(r: Sums, x: real, y: real)
    ensures Adds(r, Sample(x, y), x, y, x * x, x * y)
  {
  }

  /** What a score with stagnation adds to the tables. */
  function Added(s: Snapshot, r: RouteScore): ArcSample {
    ArcSample(r.routeId, s.windowStart, s.windowEnd, r.forward + r.backward, r.stagnationScore.GetOr(0.0),
              r.sameSensorFlow)
  }

  lemma {:induction false} GroupGrows<K(!new)>(snapshots: seq<Snapshot>, s: Snapshot, key: ArcSample -> K, k: K,
      q: RouteScore -> bool)
    requires forall r: RouteScore :: q(r) <==> r.stagnationScore.Some? && key(Added(s, r)) == k
    ensures Group(AllSamples(snapshots + [s]), key, k)
         == Group(AllSamples(snapshots), key, k) + Map(Filter(s.routeScores, q), r => Added(s, r))
  {
    assert (snapshots + [s])[..|snapshots|] == snapshots;
    FilterConcat(AllSamples(snapshots), SamplesOf(s), (x: ArcSample) => key(x) == k);
    PickedGroup(s.routeScores, (r: RouteScore) => SampleOf(s, r), (x: ArcSample) => key(x) == k, q,
                (r: RouteScore) => Added(s, r));
  }

  /** How far a group extends with more samples of one window. */
  lemma {:induction false} ExtentGrows(group: seq<ArcSample>, more: seq<ArcSample>, start: Time, end: Time,
      first: Time, last: Time, first': Time, last': Time)
    requires |more| > 0 && forall x :: x in more ==> x.start == start && x.end == end
    requires |group| > 0 ==> IsExtent(group, first, last)
    requires IsExtent(group + more, first', last')
    ensures first' == if |group| > 0 && first < start then first else start
    ensures last' == if |group| > 0 && last > end then last else end
  {
    var x :| x in group + more && x.start == first';
    var y :| y in group + more && y.end == last';
    assert more[0] in group + more;
    if |group| > 0 {
      var p :| p in group && p.start == first;
      var q :| q in group && q.end == last;
      assert p in group + more && q in group + more;
    }
  }

  /** After a snapshot is saved, every row of the stagnation table has grown by its scores. */
  lemma {:induction false} StagnationTableGrows(before: map<StagnationCell, StagnationRow>,
      after: map<StagnationCell, StagnationRow>, snapshots: seq<Snapshot>, s: Snapshot, k: StagnationCell)
    requires StagnationIsRight(before, AllSamples(snapshots))
    requires StagnationIsRight(after, AllSamples(snapshots + [s]))
    ensures StagnationGrows(before, after, s, k)
  {
    var q := (r: RouteScore) => InStagnationCell(s, r, k);
    HourIs(k.hourStart, s.windowStart);
    GroupGrows(snapshots, s, StagnationKey, k, q);
    var group, scores := Group(AllSamples(snapshots), StagnationKey, k), Filter(s.routeScores, q);
    var more := Map(scores, r => Added(s, r));
    assert CellIsRight(before, k, group, FreshStagnation, MergeStagnation);
    assert CellIsRight(after, k, group + more, FreshStagnation, MergeStagnation);
    hide Bucket, AllSamples, Group, Filter, StagnationKey, StagnationIsRight, InStagnationCell;
    if |scores| == 0 {
      assert group + more == group;
    } else {
      StagnationRowGrows(before, after, group, scores, s, k);
    }
  }

  lemma {:induction false} AddedSums(s: Snapshot, scores: seq<RouteScore>)
    ensures SumsOf(Map(Map(scores, r => Added(s, r)), ArcPoint)) ==
            ScoreSums(scores)
  {
    var point := (r: RouteScore) => ArcPoint(Added(s, r));
    assert Map(Map(scores, r => Added(s, r)), ArcPoint) == Map(scores, point);
    forall sums: Sums, r: RouteScore
      ensures Adds(sums, point(r), FlowOf(r), StagnationOf(r), FlowSquared(r), FlowTimesStagnation(r))
    {
      AddsProducts(sums, FlowOf(r), StagnationOf(r));
    }
    hide Adds, Sum, SumsOf, FlowOf, StagnationOf, FlowSquared, FlowTimesStagnation;
    SumsAre(scores, point, FlowOf, StagnationOf, FlowSquared, FlowTimesStagnation);
  }

  lemma {:induction false} StagnationRowGrows(before: map<StagnationCell, StagnationRow>,
      after: map<StagnationCell, StagnationRow>, group: seq<ArcSample>, scores: seq<RouteScore>, s: Snapshot,
      k: StagnationCell)
    requires |scores| > 0
    requires CellIsRight(before, k, group, FreshStagnation, MergeStagnation)
    requires CellIsRight(after, k, group + Map(scores, r => Added(s, r)), FreshStagnation, MergeStagnation)
    requires scores == Filter(s.routeScores, (r: RouteScore) => InStagnationCell(s, r, k))
    ensures StagnationGrows(before, after, s, k)
  {
    var more := Map(scores, r => Added(s, r));
    assert |more| == |scores|;
    AddedSums(s, scores);
    hide RowOf, SumsOf, Filter, Sum, InStagnationCell, RowWith;
    if k in before {
      AfterMore(group, more, s.windowStart, s.windowEnd);
      OldRowWith(before[k], s, scores);
    } else {
      assert group + more == more;
      FreshMore(more, s.windowStart, s.windowEnd);
      FreshRowWith(s, scores);
    }
  }

  /** The sums of some scores. */
  function ScoreSums(scores: seq<RouteScore>): Sums {
    Sums(|scores|, Sum(Map(scores, FlowOf)), Sum(Map(scores, StagnationOf)), Sum(Map(scores, FlowSquared)),
         Sum(Map(scores, FlowTimesStagnation)))
  }

  lemma {:induction false} OldRowWith(was: StagnationRow, s: Snapshot, scores: seq<RouteScore>)
    ensures RowWith(Some(was), s, scores) ==
            StagnationRow(was.sums.Plus(ScoreSums(scores)),
                          if was.firstStart < s.windowStart then was.firstStart else s.windowStart,
                          if was.lastEnd > s.windowEnd then was.lastEnd else s.windowEnd)
  {
  }

  lemma {:induction false} FreshRowWith(s: Snapshot, scores: seq<RouteScore>)
    ensures RowWith(None, s, scores) == StagnationRow(ScoreSums(scores), s.windowStart, s.windowEnd)
  {
    hide Sum;
    assert RowWith(None, s, scores).sums.x == ScoreSums(scores).x;
  }

  /** The row of a group that more samples of one window have joined. */
  lemma {:induction false} AfterMore(group: seq<ArcSample>, more: seq<ArcSample>, start: Time, end: Time)
    requires |group| > 0 && |more| > 0 && forall x :: x in more ==> x.start == start && x.end == end
    ensures var was := RowOf(group, FreshStagnation, MergeStagnation);
            RowOf(group + more, FreshStagnation, MergeStagnation) ==
            StagnationRow(was.sums.Plus(SumsOf(Map(more, ArcPoint))),
                          if was.firstStart < start then was.firstStart else start,
                          if was.lastEnd > end then was.lastEnd else end)
  {
    StagnationRowMeans(group);
    StagnationRowMeans(group + more);
    MapConcat(group, more, ArcPoint);
    SumsOfConcat(Map(group, ArcPoint), Map(more, ArcPoint));
    hide RowOf, IsExtent, SumsOf;
    var was := RowOf(group, FreshStagnation, MergeStagnation);
    var row := RowOf(group + more, FreshStagnation, MergeStagnation);
    ExtentGrows(group, more, start, end, was.firstStart, was.lastEnd, row.firstStart, row.lastEnd);
  }

  lemma {:induction false} FreshMore(more: seq<ArcSample>, start: Time, end: Time)
    requires |more| > 0 && forall x :: x in more ==> x.start == start && x.end == end
    ensures RowOf(more, FreshStagnation, MergeStagnation) == StagnationRow(SumsOf(Map(more, ArcPoint)), start, end)
  {
    StagnationRowMeans(more);
    hide RowOf, IsExtent, SumsOf;
    var row := RowOf(more, FreshStagnation, MergeStagnation);
    assert [] + more == more;
    ExtentGrows([], more, start, end, 0, 0, row.firstStart, row.lastEnd);
  }

  lemma {:induction false} FlowDwellTableGrows(before: map<FlowDwellCell, FlowDwellRow>,
      after: map<FlowDwellCell, FlowDwellRow>, snapshots: seq<Snapshot>, s: Snapshot, k: FlowDwellCell)
    requires FlowDwellIsRight(before, AllSamples(snapshots))
    requires FlowDwellIsRight(after, AllSamples(snapshots + [s]))
    ensures FlowDwellGrows(before, after, s, k)
  {
    var q := (r: RouteScore) => InFlowDwellCell(s, r, k);
    HourIs(k.hourStart, s.windowStart);
    GroupGrows(snapshots, s, FlowDwellKey, k, q);
    var group, scores := Group(AllSamples(snapshots), FlowDwellKey, k), Filter(s.routeScores, q);
    var more := Map(scores, r => Added(s, r));
    assert CellIsRight(before, k, group, FreshFlowDwell, MergeFlowDwell);
    assert CellIsRight(after, k, group + more, FreshFlowDwell, MergeFlowDwell);
    hide Bucket, AllSamples, Group, Filter, FlowDwellKey, FlowDwellIsRight, InFlowDwellCell, IsExtent, RowOf;
    if |scores| == 0 {
      assert group + more == group;
    } else {
      FlowDwellRowGrows(before, after, group, scores, s, k);
    }
  }

  lemma {:induction false} FlowDwellRowGrows(before: map<FlowDwellCell, FlowDwellRow>,
      after: map<FlowDwellCell, FlowDwellRow>, group: seq<ArcSample>, scores: seq<RouteScore>, s: Snapshot,
      k: FlowDwellCell)
    requires |scores| > 0
    requires CellIsRight(before, k, group, FreshFlowDwell, MergeFlowDwell)
    requires CellIsRight(after, k, group + Map(scores, r => Added(s, r)), FreshFlowDwell, MergeFlowDwell)
    requires scores == Filter(s.routeScores, (r: RouteScore) => InFlowDwellCell(s, r, k))
    ensures FlowDwellGrows(before, after, s, k)
  {
    var more := Map(scores, r => Added(s, r));
    if |group| > 0 {
      FlowDwellRowMeans(group);
    }
    FlowDwellRowMeans(group + more);
    hide RowOf, Filter, InFlowDwellCell, IsExtent, Bucket;
    ExtentGrows(group, more, s.windowStart, s.windowEnd,
                if k in before then before[k].firstStart else 0, if k in before then before[k].lastEnd else 0,
                after[k].firstStart, after[k].lastEnd);
  }
}
