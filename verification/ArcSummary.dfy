/** Summaries of the hourly arc tables, and what they say of the samples behind them. */
module ArcSummary {
  import opened Basics
  import opened Seqs
  import opened LeastSquares
  import opened Buckets
  import opened Quantiles
  import opened Histograms
  import opened ArcTables

  /** A missing free-flow dwell is a NULL. */
  datatype FlowDwellSummary = FlowDwellSummary(flowP90: real, freeFlowDwellMin: Option<real>, span: Duration)

  const NO_FLOW_DWELL := FlowDwellSummary(0.0, None, 0)

  datatype ArcHistory = ArcHistory(
    routeId: Id,
    sampleCount: nat,
    p90Stagnation: real,
    meanStagnation: real,
    firstStart: Time,
    lastEnd: Time,
    flow: Sums,
    sameSensorFlow: Sums,
    flowDwell: FlowDwellSummary)

  /** The samples of a route whose whole cells are recent, and start no earlier than the route's
      sensors last changed. */
  ghost function RetainedSamples<K(!new)>(samples: seq<ArcSample>, key: ArcSample -> K, routeId: Id, since: Time,
      changedAt: Time): seq<ArcSample> {
    Filter(samples, (s: ArcSample) => s.routeId == routeId && SampleRetained(samples, key, since, changedAt, s))
  }

  /** Rows of cells that count the samples of their cells and say how far these extend. */
  ghost predicate RowsCount<K(!new)>(rows: map<K, FlowDwellRow>, samples: seq<ArcSample>, key: ArcSample -> K) {
    forall k :: k in rows ==> RowCounts(rows[k], Group(samples, key, k))
  }

  ghost predicate RowCounts(row: FlowDwellRow, group: seq<ArcSample>) {
    row.sampleCount == |group| > 0 && IsExtent(group, row.firstStart, row.lastEnd)
  }

  /** The counts of the cells, added up bucket by bucket, and how far the cells extend. */
  datatype Tally = Tally(histogram: Histogram, first: Time, last: Time)

  ghost predicate Tallies(t: Tally, samples: seq<ArcSample>, value: ArcSample -> real) {
    && IsHistogram(t.histogram, multiset(Map(samples, value)))
    && (|samples| > 0 ==> IsExtent(samples, t.first, t.last))
  }

  function AddCell(t: Tally, bucket: real, row: FlowDwellRow): Tally {
    Tally(AddTo(t.histogram, bucket, row.sampleCount),
          if t.histogram == map[] then row.firstStart else Least(t.first, row.firstStart),
          if t.histogram == map[] then row.lastEnd else Greatest(t.last, row.lastEnd))
  }

  lemma {:induction false} SameExtent(a: seq<ArcSample>, b: seq<ArcSample>, first: Time, last: Time)
    requires multiset(a) == multiset(b) && IsExtent(a, first, last)
    ensures IsExtent(b, first, last)
  {
    forall s
      ensures s in a <==> s in b
    {
      assert s in a <==> s in multiset(a);
      assert s in b <==> s in multiset(b);
    }
  }

  lemma {:induction false} ExtentConcat(a: seq<ArcSample>, b: seq<ArcSample>, first: Time, last: Time, first': Time,
      last': Time)
    requires IsExtent(a, first, last) && IsExtent(b, first', last')
    ensures IsExtent(a + b, Least(first, first'), Greatest(last, last'))
  {
    var p :| p in a && p.start == first;
    var q :| q in a && q.end == last;
    var p' :| p' in b && p'.start == first';
    var q' :| q' in b && q'.end == last';
    assert p in a + b && q in a + b && p' in a + b && q' in a + b;
  }

  lemma {:induction false} TallyAppend(t: Tally, samples: seq<ArcSample>, group: seq<ArcSample>,
      value: ArcSample -> real, bucket: real, row: FlowDwellRow)
    requires Tallies(t, samples, value) && RowCounts(row, group)
    requires forall s :: s in group ==> value(s) == bucket
    ensures Tallies(AddCell(t, bucket, row), samples + group, value)
  {
    var v, more := Map(samples, value), Map(group, value);
    MapConcat(samples, group, value);
    assert multiset(v + more) == multiset(v) + multiset(more);
    AddCounts(t.histogram, multiset(v), more, bucket);
    if |samples| > 0 {
      assert v[0] in multiset(v);
      ExtentConcat(samples, group, t.first, t.last, row.firstStart, row.lastEnd);
    } else {
      assert samples + group == group;
      NoBuckets(t.histogram);
    }
  }

  lemma {:induction false} NoBuckets(h: Histogram)
    requires IsHistogram(h, multiset{})
    ensures h == map[]
  {
    forall b
      ensures b !in h
    {
      assert b in h <==> b in multiset{};
    }
  }

  lemma {:induction false} TallyPermuted(t: Tally, a: seq<ArcSample>, b: seq<ArcSample>, value: ArcSample -> real)
    requires multiset(a) == multiset(b) && Tallies(t, a, value)
    ensures Tallies(t, b, value)
  {
    MapPermuted(a, b, value);
    assert |a| == |multiset(a)| == |multiset(b)| == |b|;
    if |a| > 0 {
      SameExtent(a, b, t.first, t.last);
    }
  }

  /** Grouping the cells by bucket and adding up their counts. */
  method TallyCells<K(!new, ==)>(rows: map<K, FlowDwellRow>, bucket: K -> real,
                                 ghost samples: seq<ArcSample>, ghost key: ArcSample -> K,
                                 ghost value: ArcSample -> real)
    returns (t: Tally)
    requires RowsCount(rows, samples, key)
    requires forall s :: value(s) == bucket(key(s))
    ensures Tallies(t, InCells(samples, key, rows.Keys), value)
  {
    t := Tally(map[], 0, 0);
    var rest := rows.Keys;
    NoCellsTally(samples, key, value);
    Moved(rows.Keys, rest);
    while rest != {}
      invariant rest <= rows.Keys
      invariant Tallies(t, InCells(samples, key, rows.Keys - rest), value)
      decreases rest
    {
      var k :| k in rest;
      Moved(rows.Keys, rest);
      TallyOneMoreCell(t, samples, key, value, rows.Keys - rest, k, bucket(k), rows[k]);
      t := AddCell(t, bucket(k), rows[k]);
      rest := rest - {k};
    }
    Moved(rows.Keys, rest);
  }

  lemma {:induction false} NoCellsTally<K>(samples: seq<ArcSample>, key: ArcSample -> K, value: ArcSample -> real)
    ensures Tallies(Tally(map[], 0, 0), InCells(samples, key, {}), value)
  {
    InNoCells(samples, key);
  }

  lemma {:induction false} TallyOneMoreCell<K>(t: Tally, samples: seq<ArcSample>, key: ArcSample -> K,
      value: ArcSample -> real, done: set<K>,
                            k: K, bucket: real, row: FlowDwellRow)
    requires k !in done && Tallies(t, InCells(samples, key, done), value) && RowCounts(row, Group(samples, key, k))
    requires forall s :: key(s) == k ==> value(s) == bucket
    ensures Tallies(AddCell(t, bucket, row), InCells(samples, key, done + {k}), value)
  {
    InOneMoreCell(samples, key, done, k);
    GroupMembers(samples, key, k);
    TallyAppend(t, InCells(samples, key, done), Group(samples, key, k), value, bucket, row);
    TallyPermuted(AddCell(t, bucket, row), InCells(samples, key, done) + Group(samples, key, k),
                  InCells(samples, key, done + {k}), value);
  }

  lemma {:induction false} GroupMembers<K>(samples: seq<ArcSample>, key: ArcSample -> K, k: K)
    ensures forall s :: s in Group(samples, key, k) <==> s in samples && key(s) == k
  {
    FilterMembers(samples, (s: ArcSample) => key(s) == k);
  }

  /** The retained cells hold exactly the retained samples. */
  lemma {:induction false} RetainedCells<K(!new)>(samples: seq<ArcSample>, key: ArcSample -> K, cells: set<K>,
      routeId: Id, since: Time, changedAt: Time)
    requires forall s :: s in samples ==>
               (key(s) in cells <==> s.routeId == routeId && SampleRetained(samples, key, since, changedAt, s))
    ensures InCells(samples, key, cells) == RetainedSamples(samples, key, routeId, since, changedAt)
  {
    FilterAgrees(samples, (s: ArcSample) => key(s) in cells,
                 (s: ArcSample) => s.routeId == routeId && SampleRetained(samples, key, since, changedAt, s));
  }

  function StagnationBucket(s: ArcSample): real {
    Bucket(s.stagnation)
  }

  function CellBucket(k: StagnationCell): real {
    k.bucket
  }

  predicate IsSameSensor(s: ArcSample) {
    s.sameSensorFlow
  }

  function ArcPoints(samples: seq<ArcSample>): seq<Sample> {
    Map(samples, ArcPoint)
  }

  function SameSensorPoints(samples: seq<ArcSample>): seq<Sample> {
    ArcPoints(Filter(samples, IsSameSensor))
  }

  /** The running sums of all samples, and of those from one unchanged sensor. */
  ghost predicate SumsAreOf(flow: Sums, same: Sums, samples: seq<ArcSample>) {
    flow == SumsOf(ArcPoints(samples)) && same == SumsOf(SameSensorPoints(samples))
  }

  lemma {:induction false} SumsAppend(flow: Sums, same: Sums, samples: seq<ArcSample>, group: seq<ArcSample>,
      sums: Sums, sameSensor: bool)
    requires SumsAreOf(flow, same, samples) && sums == SumsOf(ArcPoints(group))
    requires forall s :: s in group ==> s.sameSensorFlow == sameSensor
    ensures SumsAreOf(flow.Plus(sums), if sameSensor then same.Plus(sums) else same, samples + group)
  {
    PointSums(samples, group);
    FilterConcat(samples, group, IsSameSensor);
    FilterAll(group, sameSensor);
    var p := Filter(samples, IsSameSensor);
    if sameSensor {
      PointSums(p, group);
    } else {
      assert p + [] == p;
    }
  }

  lemma {:induction false} PointSums(a: seq<ArcSample>, b: seq<ArcSample>)
    ensures SumsOf(ArcPoints(a + b)) == SumsOf(ArcPoints(a)).Plus(SumsOf(ArcPoints(b)))
  {
    MapConcat(a, b, ArcPoint);
    SumsOfConcat(ArcPoints(a), ArcPoints(b));
  }

  lemma {:induction false} FilterAll(group: seq<ArcSample>, sameSensor: bool)
    requires forall s :: s in group ==> s.sameSensorFlow == sameSensor
    ensures Filter(group, IsSameSensor) == if sameSensor then group else []
  {
    if |group| > 0 {
      assert group == group[..|group| - 1] + [group[|group| - 1]];
      FilterAll(group[..|group| - 1], sameSensor);
    }
  }

  lemma {:induction false} SumsAreOfPermuted(flow: Sums, same: Sums, a: seq<ArcSample>, b: seq<ArcSample>)
    requires multiset(a) == multiset(b) && SumsAreOf(flow, same, a)
    ensures SumsAreOf(flow, same, b)
  {
    MapPermuted(a, b, ArcPoint);
    SumsPermuted(ArcPoints(a), ArcPoints(b));
    FilterPermuted(a, b, IsSameSensor);
    MapPermuted(Filter(a, IsSameSensor), Filter(b, IsSameSensor), ArcPoint);
    SumsPermuted(SameSensorPoints(a), SameSensorPoints(b));
  }

  ghost predicate RowsSum(rows: map<StagnationCell, StagnationRow>, samples: seq<ArcSample>) {
    forall k :: k in rows ==> rows[k].sums == SumsOf(ArcPoints(Group(samples, StagnationKey, k)))
  }

  datatype RouteSums = RouteSums(flow: Sums, same: Sums)

  function AddRow(t: RouteSums, k: StagnationCell, row: StagnationRow): RouteSums {
    RouteSums(t.flow.Plus(row.sums), if k.sameSensorFlow then t.same.Plus(row.sums) else t.same)
  }

  ghost predicate CellsSum(t: RouteSums, samples: seq<ArcSample>, done: set<StagnationCell>) {
    SumsAreOf(t.flow, t.same, InCells(samples, StagnationKey, done))
  }

  lemma {:induction false} SumOneMoreCell(t: RouteSums, rows: map<StagnationCell, StagnationRow>,
      samples: seq<ArcSample>, done: set<StagnationCell>, k: StagnationCell)
    requires k !in done && k in rows && RowsSum(rows, samples) && CellsSum(t, samples, done)
    ensures CellsSum(AddRow(t, k, rows[k]), samples, done + {k})
  {
    var group := Group(samples, StagnationKey, k);
    var t' := AddRow(t, k, rows[k]);
    InOneMoreCell(samples, StagnationKey, done, k);
    GroupMembers(samples, StagnationKey, k);
    SumsAppend(t.flow, t.same, InCells(samples, StagnationKey, done), group, rows[k].sums, k.sameSensorFlow);
    SumsAreOfPermuted(t'.flow, t'.same, InCells(samples, StagnationKey, done) + group,
                      InCells(samples, StagnationKey, done + {k}));
  }

  lemma {:induction false} NoCellsSum(samples: seq<ArcSample>)
    ensures CellsSum(RouteSums(EMPTY, EMPTY), samples, {})
  {
    InNoCells(samples, StagnationKey);
  }

  method SumCells(rows: map<StagnationCell, StagnationRow>, ghost samples: seq<ArcSample>) returns (t: RouteSums)
    requires RowsSum(rows, samples)
    ensures CellsSum(t, samples, rows.Keys)
  {
    t := RouteSums(EMPTY, EMPTY);
    var rest := rows.Keys;
    NoCellsSum(samples);
    Moved(rows.Keys, rest);
    while rest != {}
      invariant rest <= rows.Keys
      invariant CellsSum(t, samples, rows.Keys - rest)
      decreases rest
    {
      var k :| k in rest;
      Moved(rows.Keys, rest);
      SumOneMoreCell(t, rows, samples, rows.Keys - rest, k);
      t := AddRow(t, k, rows[k]);
      rest := rest - {k};
    }
    Moved(rows.Keys, rest);
  }

  /** How the set that is done grows as the rest shrinks. */
  lemma {:induction false} Moved<K>(all: set<K>, rest: set<K>)
    requires rest <= all
    ensures forall k :: k in rest ==> all - (rest - {k}) == (all - rest) + {k}
    ensures rest == all ==> all - rest == {}
    ensures rest == {} ==> all - rest == all
  {
    forall k | k in rest
      ensures all - (rest - {k}) == (all - rest) + {k}
    {
    }
  }

  /** What a summary row of a route says of the samples that it summarises. */
  ghost predicate Summarises(h: ArcHistory, retained: seq<ArcSample>) {
    && h.sampleCount == |retained| > 0
    && SumsAreOf(h.flow, h.sameSensorFlow, retained)
    && h.p90Stagnation == QuantileOf(Map(retained, StagnationBucket), 0.9)
    && h.meanStagnation == h.flow.y / h.sampleCount as real
    && IsExtent(retained, h.firstStart, h.lastEnd)
  }

  function RetainedStagnation(table: map<StagnationCell, StagnationRow>, routeId: Id, since: Time,
      changedAt: Time): map<StagnationCell, StagnationRow> {
    map k | k in table && k.routeId == routeId
      && Retained(k.hourStart, table[k].firstStart, since, changedAt) :: table[k]
  }

  lemma {:induction false} StagnationRows(table: map<StagnationCell, StagnationRow>, samples: seq<ArcSample>,
      routeId: Id, since: Time, changedAt: Time)
    requires StagnationIsRight(table, samples)
    ensures var rows := RetainedStagnation(table, routeId, since, changedAt);
      && RowsSum(rows, samples)
      && InCells(samples, StagnationKey, rows.Keys)
          == RetainedSamples(samples, StagnationKey, routeId, since, changedAt)
      && forall k :: k in rows
           ==> RowCounts(FlowDwellRow(rows[k].sums.n, rows[k].firstStart, rows[k].lastEnd),
                         Group(samples, StagnationKey, k))
  {
    var rows := RetainedStagnation(table, routeId, since, changedAt);
    forall k | k in table
      ensures table[k].sums == SumsOf(ArcPoints(Group(samples, StagnationKey, k)))
      ensures RowCounts(FlowDwellRow(table[k].sums.n, table[k].firstStart, table[k].lastEnd),
                        Group(samples, StagnationKey, k))
    {
      StagnationCellMeans(table, samples, k);
    }
    forall s | s in samples
      ensures StagnationKey(s) in rows.Keys
         <==> s.routeId == routeId && SampleRetained(samples, StagnationKey, since, changedAt, s)
    {
      SampleHasStagnationCell(table, samples, s);
      var row := table[StagnationKey(s)];
      CellRetained(samples, StagnationKey, since, changedAt, s, row.firstStart, row.lastEnd);
    }
    RetainedCells(samples, StagnationKey, rows.Keys, routeId, since, changedAt);
  }

  lemma {:induction false} StagnationCellMeans(table: map<StagnationCell, StagnationRow>, samples: seq<ArcSample>,
      k: StagnationCell)
    requires StagnationIsRight(table, samples) && k in table
    ensures table[k].sums == SumsOf(ArcPoints(Group(samples, StagnationKey, k)))
    ensures RowCounts(FlowDwellRow(table[k].sums.n, table[k].firstStart, table[k].lastEnd),
                      Group(samples, StagnationKey, k))
  {
    var group := Group(samples, StagnationKey, k);
    assert CellIsRight(table, k, group, FreshStagnation, MergeStagnation);
    StagnationRowMeans(group);
  }

  lemma {:induction false} SampleHasStagnationCell(table: map<StagnationCell, StagnationRow>,
      samples: seq<ArcSample>, s: ArcSample)
    requires StagnationIsRight(table, samples) && s in samples
    ensures StagnationKey(s) in table
    ensures IsExtent(Group(samples, StagnationKey, StagnationKey(s)), table[StagnationKey(s)].firstStart,
                     table[StagnationKey(s)].lastEnd)
  {
    var group := Group(samples, StagnationKey, StagnationKey(s));
    GroupMembers(samples, StagnationKey, StagnationKey(s));
    assert s in group;
    assert CellIsRight(table, StagnationKey(s), group, FreshStagnation, MergeStagnation);
    StagnationCellMeans(table, samples, StagnationKey(s));
  }

  /** One row of the arc history query. */
  method SummarizeRoute(table: map<StagnationCell, StagnationRow>, routeId: Id, since: Time, changedAt: Time,
      ghost samples: seq<ArcSample>)
    returns (h: ArcHistory)
    requires StagnationIsRight(table, samples)
    requires |RetainedSamples(samples, StagnationKey, routeId, since, changedAt)| > 0
    ensures h.routeId == routeId && Summarises(h, RetainedSamples(samples, StagnationKey, routeId, since, changedAt))
    ensures h.flowDwell == NO_FLOW_DWELL
  {
    var rows := RetainedStagnation(table, routeId, since, changedAt);
    StagnationRows(table, samples, routeId, since, changedAt);
    ghost var retained := RetainedSamples(samples, StagnationKey, routeId, since, changedAt);
    var sums := SumCells(rows, samples);
    var counts := map k | k in rows :: FlowDwellRow(rows[k].sums.n, rows[k].firstStart, rows[k].lastEnd);
    assert counts.Keys == rows.Keys;
    var t := TallyCells(counts, CellBucket, samples, StagnationKey, StagnationBucket);
    var p90 := RouteQuantile(t.histogram, 0.9, Map(retained, StagnationBucket));
    var flow := sums.flow;
    h := ArcHistory(routeId, flow.n, p90, flow.y / flow.n as real, t.first, t.last, flow, sums.same, NO_FLOW_DWELL);
  }

  function FlowBucket(s: ArcSample): real {
    Bucket(s.flow)
  }

  function CellFlowBucket(k: FlowDwellCell): real {
    k.flowBucket
  }

  function DwellOf(s: ArcSample): real {
    DwellBucket(s).GetOr(0.0)
  }

  function CellDwell(k: FlowDwellCell): real {
    k.dwellBucket.GetOr(0.0)
  }

  predicate InBand(s: ArcSample, low: real, high: real) {
    low <= Bucket(s.flow) <= high
  }

  /** The samples in a band of flows that have a dwell, which needs some flow. */
  function Dwelling(retained: seq<ArcSample>, low: real, high: real): seq<ArcSample> {
    Filter(retained, (s: ArcSample) => InBand(s, low, high) && s.flow > 0.0)
  }

  /** The flow bucket that covers the share q of the samples. */
  ghost function FlowQuantile(retained: seq<ArcSample>, q: real): real
    requires |retained| > 0 && q <= 1.0
  {
    QuantileOf(Map(retained, FlowBucket), q)
  }

  /** The samples between the lower and the upper quartile of the flows that have a dwell. */
  ghost function FreeFlowing(retained: seq<ArcSample>): seq<ArcSample>
    requires |retained| > 0
  {
    Dwelling(retained, FlowQuantile(retained, 0.25), FlowQuantile(retained, 0.75))
  }

  ghost predicate SummarisesFlowDwell(d: FlowDwellSummary, retained: seq<ArcSample>) {
    && |retained| > 0
    && d.flowP90 == FlowQuantile(retained, 0.9)
    && d.freeFlowDwellMin == MedianDwell(FreeFlowing(retained))
    && (exists first, last :: IsExtent(retained, first, last) && d.span == last - first)
  }

  ghost function MedianDwell(samples: seq<ArcSample>): Option<real> {
    if |samples| == 0 then None else Some(QuantileOf(Map(samples, DwellOf), 0.5))
  }

  function RetainedFlowDwell(table: map<FlowDwellCell, FlowDwellRow>, routeId: Id, since: Time,
      changedAt: Time): map<FlowDwellCell, FlowDwellRow> {
    map k | k in table && k.routeId == routeId
      && Retained(k.hourStart, table[k].firstStart, since, changedAt) :: table[k]
  }

  lemma {:induction false} FlowDwellRows(table: map<FlowDwellCell, FlowDwellRow>, samples: seq<ArcSample>,
      routeId: Id, since: Time, changedAt: Time)
    requires FlowDwellIsRight(table, samples)
    ensures var rows := RetainedFlowDwell(table, routeId, since, changedAt);
      && RowsCount(rows, samples, FlowDwellKey)
      && InCells(samples, FlowDwellKey, rows.Keys) == RetainedSamples(samples, FlowDwellKey, routeId, since, changedAt)
  {
    var rows := RetainedFlowDwell(table, routeId, since, changedAt);
    forall k | k in table
      ensures RowCounts(table[k], Group(samples, FlowDwellKey, k))
    {
      FlowDwellCellMeans(table, samples, k);
    }
    forall s | s in samples
      ensures FlowDwellKey(s) in rows.Keys
         <==> s.routeId == routeId && SampleRetained(samples, FlowDwellKey, since, changedAt, s)
    {
      SampleHasFlowDwellCell(table, samples, s);
      var row := table[FlowDwellKey(s)];
      CellRetained(samples, FlowDwellKey, since, changedAt, s, row.firstStart, row.lastEnd);
    }
    RetainedCells(samples, FlowDwellKey, rows.Keys, routeId, since, changedAt);
  }

  lemma {:induction false} FlowDwellCellMeans(table: map<FlowDwellCell, FlowDwellRow>, samples: seq<ArcSample>,
      k: FlowDwellCell)
    requires FlowDwellIsRight(table, samples) && k in table
    ensures RowCounts(table[k], Group(samples, FlowDwellKey, k))
  {
    var group := Group(samples, FlowDwellKey, k);
    assert CellIsRight(table, k, group, FreshFlowDwell, MergeFlowDwell);
    FlowDwellRowMeans(group);
  }

  lemma {:induction false} SampleHasFlowDwellCell(table: map<FlowDwellCell, FlowDwellRow>, samples: seq<ArcSample>,
      s: ArcSample)
    requires FlowDwellIsRight(table, samples) && s in samples
    ensures FlowDwellKey(s) in table
    ensures IsExtent(Group(samples, FlowDwellKey, FlowDwellKey(s)), table[FlowDwellKey(s)].firstStart,
                     table[FlowDwellKey(s)].lastEnd)
  {
    var group := Group(samples, FlowDwellKey, FlowDwellKey(s));
    GroupMembers(samples, FlowDwellKey, FlowDwellKey(s));
    assert s in group;
    assert CellIsRight(table, FlowDwellKey(s), group, FreshFlowDwell, MergeFlowDwell);
    FlowDwellCellMeans(table, samples, FlowDwellKey(s));
  }

  function BandRows(rows: map<FlowDwellCell, FlowDwellRow>, low: real, high: real): map<FlowDwellCell, FlowDwellRow> {
    map k | k in rows && k.dwellBucket.Some? && low <= k.flowBucket <= high :: rows[k]
  }

  lemma {:induction false} BandRow(rows: map<FlowDwellCell, FlowDwellRow>, low: real, high: real, k: FlowDwellCell)
    ensures k in BandRows(rows, low, high).Keys
       <==> k in rows.Keys && k.dwellBucket.Some? && low <= k.flowBucket <= high
  {
  }

  /** The cells of the band that have a dwell bucket hold exactly the dwelling samples. */
  lemma {:induction false} BandCells(samples: seq<ArcSample>, rows: map<FlowDwellCell, FlowDwellRow>, low: real,
      high: real)
    ensures InCells(samples, FlowDwellKey, BandRows(rows, low, high).Keys)
         == Dwelling(InCells(samples, FlowDwellKey, rows.Keys), low, high)
  {
    forall s: ArcSample
      ensures FlowDwellKey(s) in BandRows(rows, low, high).Keys
         <==> FlowDwellKey(s) in rows.Keys && InBand(s, low, high) && s.flow > 0.0
    {
      BandRow(rows, low, high, FlowDwellKey(s));
    }
    InBandCells(samples, FlowDwellKey, rows.Keys, BandRows(rows, low, high).Keys, low, high);
  }

  lemma {:induction false} InBandCells<K>(samples: seq<ArcSample>, key: ArcSample -> K, cells: set<K>, band: set<K>,
      low: real, high: real)
    requires forall s :: key(s) in band <==> key(s) in cells && InBand(s, low, high) && s.flow > 0.0
    ensures InCells(samples, key, band) == Dwelling(InCells(samples, key, cells), low, high)
  {
    FilterFilter(samples, (s: ArcSample) => key(s) in cells,
                 (s: ArcSample) => InBand(s, low, high) && s.flow > 0.0, (s: ArcSample) => key(s) in band);
  }

  /** The flow and dwell summary of a route; a route without retained cells has the zero one. */
  method SummarizeFlowDwell(table: map<FlowDwellCell, FlowDwellRow>, routeId: Id, since: Time, changedAt: Time,
      ghost samples: seq<ArcSample>)
    returns (d: FlowDwellSummary)
    requires FlowDwellIsRight(table, samples)
    ensures var retained := RetainedSamples(samples, FlowDwellKey, routeId, since, changedAt);
            if |retained| == 0 then d == NO_FLOW_DWELL else SummarisesFlowDwell(d, retained)
  {
    var rows := RetainedFlowDwell(table, routeId, since, changedAt);
    FlowDwellRows(table, samples, routeId, since, changedAt);
    ghost var retained := RetainedSamples(samples, FlowDwellKey, routeId, since, changedAt);
    var t := TallyCells(rows, CellFlowBucket, samples, FlowDwellKey, FlowBucket);
    EmptyTally(t, retained, FlowBucket);
    if t.histogram == map[] {
      return NO_FLOW_DWELL;
    }
    var p25 := RouteQuantile(t.histogram, 0.25, Map(retained, FlowBucket));
    var p75 := RouteQuantile(t.histogram, 0.75, Map(retained, FlowBucket));
    var p90 := RouteQuantile(t.histogram, 0.9, Map(retained, FlowBucket));
    var dwell := BandDwell(rows, p25, p75, samples);
    d := FlowDwellSummary(p90, dwell, t.last - t.first);
  }

  method BandDwell(rows: map<FlowDwellCell, FlowDwellRow>, low: real, high: real, ghost samples: seq<ArcSample>)
    returns (dwell: Option<real>)
    requires RowsCount(rows, samples, FlowDwellKey)
    ensures dwell == MedianDwell(Dwelling(InCells(samples, FlowDwellKey, rows.Keys), low, high))
  {
    BandCells(samples, rows, low, high);
    var band := TallyCells(BandRows(rows, low, high), CellDwell, samples, FlowDwellKey, DwellOf);
    ghost var dwelling := Dwelling(InCells(samples, FlowDwellKey, rows.Keys), low, high);
    EmptyTally(band, dwelling, DwellOf);
    if band.histogram == map[] {
      return None;
    }
    var v := RouteQuantile(band.histogram, 0.5, Map(dwelling, DwellOf));
    dwell := Some(v);
  }

  lemma {:induction false} EmptyTally(t: Tally, samples: seq<ArcSample>, value: ArcSample -> real)
    requires Tallies(t, samples, value)
    ensures t.histogram == map[] <==> |samples| == 0
  {
    if |samples| == 0 {
      assert Map(samples, value) == [];
      NoBuckets(t.histogram);
    } else {
      var b: real := Map(samples, value)[0];
      assert b in multiset(Map(samples, value));
      assert b in t.histogram;
    }
  }

  method RouteQuantile(h: Histogram, q: real, ghost values: seq<real>) returns (v: real)
    requires IsHistogram(h, multiset(values)) && |values| > 0 && q <= 1.0
    ensures v == QuantileOf(values, q)
  {
    v := Quantile(h, q, values);
    QuantileUnique(values, q, v, QuantileOf(values, q));
  }
}
