/** The hourly arc tables, which are upserted sample by sample, and the samples they summarise. */
module ArcTables {
  import opened Basics
  import opened Seqs
  import opened LeastSquares
  import opened Buckets
  import opened Domain

  /** One observation of the flow through a route and the stagnation on it. */
  datatype ArcSample = ArcSample(
    routeId: Id,
    start: Time,
    end: Time,
    flow: real,
    stagnation: real,
    sameSensorFlow: bool)

  function SampleOf(snapshot: Snapshot, score: RouteScore): Option<ArcSample> {
    match score.stagnationScore
    case None => None
    case Some(stagnation) =>
      Some(ArcSample(score.routeId, snapshot.windowStart, snapshot.windowEnd,
                     score.forward + score.backward, stagnation, score.sameSensorFlow))
  }

  function SamplesOf(snapshot: Snapshot): seq<ArcSample> {
    SamplesIn(snapshot, snapshot.routeScores)
  }

  function SamplesIn(snapshot: Snapshot, scores: seq<RouteScore>): seq<ArcSample> {
    FilterMap(scores, (score: RouteScore) => SampleOf(snapshot, score))
  }

  /** Every sample of every saved snapshot. */
  function AllSamples(snapshots: seq<Snapshot>): seq<ArcSample> {
    if |snapshots| == 0 then []
    else AllSamples(snapshots[..|snapshots| - 1]) + SamplesOf(snapshots[|snapshots| - 1])
  }

  function HourStart(t: Time): Time {
    t - t % HOUR
  }

  datatype StagnationCell = StagnationCell(hourStart: Time, routeId: Id, bucket: real, sameSensorFlow: bool)

  /** In `sums`, x is flow and y is stagnation. */
  datatype StagnationRow = StagnationRow(sums: Sums, firstStart: Time, lastEnd: Time)

  datatype FlowDwellCell = FlowDwellCell(hourStart: Time, routeId: Id, flowBucket: real, dwellBucket: Option<real>)

  datatype FlowDwellRow = FlowDwellRow(sampleCount: nat, firstStart: Time, lastEnd: Time)

  function StagnationKey(s: ArcSample): StagnationCell {
    StagnationCell(HourStart(s.start), s.routeId, Bucket(s.stagnation), s.sameSensorFlow)
  }

  function ArcPoint(s: ArcSample): Sample {
    Sample(s.flow, s.stagnation)
  }

  function FreshStagnation(s: ArcSample): StagnationRow {
    StagnationRow(EMPTY.Add(ArcPoint(s)), s.start, s.end)
  }

  function MergeStagnation(row: StagnationRow, s: ArcSample): StagnationRow {
    StagnationRow(row.sums.Add(ArcPoint(s)), Least(row.firstStart, s.start), Greatest(row.lastEnd, s.end))
  }

  /** How long people dwell on the route, as a bucket; no flow gives no dwell. */
  function DwellBucket(s: ArcSample): Option<real> {
    if s.flow > 0.0 then Some(Bucket(s.stagnation / s.flow)) else None
  }

  function FlowDwellKey(s: ArcSample): FlowDwellCell {
    FlowDwellCell(HourStart(s.start), s.routeId, Bucket(s.flow), DwellBucket(s))
  }

  function FreshFlowDwell(s: ArcSample): FlowDwellRow {
    FlowDwellRow(1, s.start, s.end)
  }

  function MergeFlowDwell(row: FlowDwellRow, s: ArcSample): FlowDwellRow {
    FlowDwellRow(row.sampleCount + 1, Least(row.firstStart, s.start), Greatest(row.lastEnd, s.end))
  }

  function Least(a: Time, b: Time): Time {
    if a <= b then a else b
  }

  function Greatest(a: Time, b: Time): Time {
    if a >= b then a else b
  }

  /** INSERT ... ON CONFLICT DO UPDATE of one sample. */
  function Upsert<K, R>(table: map<K, R>, key: ArcSample -> K, insert: ArcSample -> R,
                        merge: (R, ArcSample) -> R, s: ArcSample): map<K, R>
  {
    var k := key(s);
    table[k := if k in table then merge(table[k], s) else insert(s)]
  }

  /** The samples that belong to one cell. */
  function Group<K(==)>(samples: seq<ArcSample>, key: ArcSample -> K, k: K): seq<ArcSample> {
    Filter(samples, (s: ArcSample) => key(s) == k)
  }

  /** The row that summarises a nonempty group of samples. */
  function RowOf<R>(group: seq<ArcSample>, insert: ArcSample -> R, merge: (R, ArcSample) -> R): R
    requires |group| > 0
  {
    if |group| == 1 then insert(group[0])
    else merge(RowOf(group[..|group| - 1], insert, merge), group[|group| - 1])
  }

  /** The table holds exactly one row for each cell that has samples: the row of those samples. */
  ghost predicate IsAggregate<K(!new), R>(table: map<K, R>, samples: seq<ArcSample>, key: ArcSample -> K,
                                          insert: ArcSample -> R, merge: (R, ArcSample) -> R)
  {
    forall k :: CellIsRight(table, k, Group(samples, key, k), insert, merge)
  }

  ghost predicate CellIsRight<K, R>(table: map<K, R>, k: K, group: seq<ArcSample>,
                                    insert: ArcSample -> R, merge: (R, ArcSample) -> R)
  {
    (k in table <==> |group| > 0) && (k in table ==> table[k] == RowOf(group, insert, merge))
  }

  ghost predicate StagnationIsRight(table: map<StagnationCell, StagnationRow>, samples: seq<ArcSample>) {
    IsAggregate(table, samples, StagnationKey, FreshStagnation, MergeStagnation)
  }

  ghost predicate FlowDwellIsRight(table: map<FlowDwellCell, FlowDwellRow>, samples: seq<ArcSample>) {
    IsAggregate(table, samples, FlowDwellKey, FreshFlowDwell, MergeFlowDwell)
  }

  /** Upserting one more sample keeps the table the aggregate of all samples. */
  lemma {:induction false} UpsertKeepsAggregate<K(!new), R>(table: map<K, R>, samples: seq<ArcSample>, s: ArcSample,
      key: ArcSample -> K, insert: ArcSample -> R, merge: (R, ArcSample) -> R)
    requires IsAggregate(table, samples, key, insert, merge)
    ensures IsAggregate(Upsert(table, key, insert, merge, s), samples + [s], key, insert, merge)
  {
    var table' := Upsert(table, key, insert, merge, s);
    forall k
      ensures CellIsRight(table', k, Group(samples + [s], key, k), insert, merge)
    {
      var group := Group(samples, key, k);
      assert CellIsRight(table, k, group, insert, merge);
      FilterAppend(samples, s, (x: ArcSample) => key(x) == k);
      if key(s) == k {
        assert Group(samples + [s], key, k) == group + [s];
        assert (group + [s])[..|group|] == group;
      }
    }
  }

  /** What the row of a group means, cell by cell. */
  lemma {:induction false} StagnationRowMeans(group: seq<ArcSample>)
    requires |group| > 0
    ensures var row := RowOf(group, FreshStagnation, MergeStagnation);
            row.sums == SumsOf(Map(group, ArcPoint)) && IsExtent(group, row.firstStart, row.lastEnd)
  {
    hide IsExtent;
    var rest, l := group[..|group| - 1], group[|group| - 1];
    assert group == rest + [l];
    assert Map(group, ArcPoint)[..|group| - 1] == Map(rest, ArcPoint);
    if |group| == 1 {
      ExtentOfOne(group);
    } else {
      StagnationRowMeans(rest);
      var row := RowOf(rest, FreshStagnation, MergeStagnation);
      hide RowOf;
      ExtentAppend(rest, l, row.firstStart, row.lastEnd);
    }
  }

  lemma {:induction false} FlowDwellRowMeans(group: seq<ArcSample>)
    requires |group| > 0
    ensures var row := RowOf(group, FreshFlowDwell, MergeFlowDwell);
            row.sampleCount == |group| && IsExtent(group, row.firstStart, row.lastEnd)
  {
    hide IsExtent;
    if |group| == 1 {
      ExtentOfOne(group);
    } else {
      var rest, l := group[..|group| - 1], group[|group| - 1];
      FlowDwellRowMeans(rest);
      var row := RowOf(rest, FreshFlowDwell, MergeFlowDwell);
      hide RowOf;
      ExtentAppend(rest, l, row.firstStart, row.lastEnd);
      assert group == rest + [l];
    }
  }

  /** The earliest start and the latest end of the samples. */
  ghost predicate IsExtent(samples: seq<ArcSample>, first: Time, last: Time) {
    && (forall s :: s in samples ==> first <= s.start && s.end <= last)
    && (exists s :: s in samples && s.start == first)
    && (exists s :: s in samples && s.end == last)
  }

  lemma {:induction false} ExtentOfOne(samples: seq<ArcSample>)
    requires |samples| == 1
    ensures IsExtent(samples, samples[0].start, samples[0].end)
  {
    assert samples[0] in samples;
  }

  lemma {:induction false} ExtentAppend(samples: seq<ArcSample>, s: ArcSample, first: Time, last: Time)
    requires IsExtent(samples, first, last)
    ensures IsExtent(samples + [s], Least(first, s.start), Greatest(last, s.end))
  {
    var f :| f in samples && f.start == first;
    var l :| l in samples && l.end == last;
    assert f in samples + [s] && l in samples + [s] && s in samples + [s];
  }

  /** The samples whose cells are in `cells`. */
  function InCells<K(==)>(samples: seq<ArcSample>, key: ArcSample -> K, cells: set<K>): seq<ArcSample> {
    Filter(samples, (s: ArcSample) => key(s) in cells)
  }

  lemma {:induction false} InNoCells<K>(samples: seq<ArcSample>, key: ArcSample -> K)
    ensures InCells(samples, key, {}) == []
  {
    if |samples| > 0 {
      InNoCells(samples[..|samples| - 1], key);
    }
  }

  /** One more cell contributes exactly its group. */
  lemma {:induction false} InOneMoreCell<K>(samples: seq<ArcSample>, key: ArcSample -> K, cells: set<K>, k: K)
    requires k !in cells
    ensures multiset(InCells(samples, key, cells + {k}))
         == multiset(InCells(samples, key, cells) + Group(samples, key, k))
  {
    FilterSplit(samples, (s: ArcSample) => key(s) in cells, (s: ArcSample) => key(s) == k,
                (s: ArcSample) => key(s) in cells + {k});
  }

  /** A cell is summarised when it is recent enough and no sample in it starts before the
      sensors of its route last changed. */
  predicate Retained(hourStart: Time, firstStart: Time, since: Time, changedAt: Time) {
    hourStart >= since && (changedAt == ZERO_TIME || firstStart >= changedAt)
  }

  /** The same condition, of a sample among all samples: its whole cell must be retained. */
  ghost predicate SampleRetained<K>(samples: seq<ArcSample>, key: ArcSample -> K, since: Time, changedAt: Time,
      s: ArcSample) {
    && HourStart(s.start) >= since
    && (changedAt == ZERO_TIME || forall t :: t in samples && key(t) == key(s) ==> t.start >= changedAt)
  }

  /** A cell is retained exactly when each of its samples is. */
  lemma {:induction false} CellRetained<K>(samples: seq<ArcSample>, key: ArcSample -> K, since: Time, changedAt: Time,
                                               s: ArcSample, first: Time, last: Time)
    requires s in samples && IsExtent(Group(samples, key, key(s)), first, last)
    ensures Retained(HourStart(s.start), first, since, changedAt) <==> SampleRetained(samples, key, since, changedAt, s)
  {
    FilterMembers(samples, (t: ArcSample) => key(t) == key(s));
    var f :| f in Group(samples, key, key(s)) && f.start == first;
    assert f in samples && key(f) == key(s);
    forall t | t in samples && key(t) == key(s)
      ensures t in Group(samples, key, key(s)) && first <= t.start
    {
    }
  }

  /** Two samples that one cell of each table holds, with the sensors changed between them. */
  function EarlierSample(): ArcSample {
    ArcSample("r", HOUR, HOUR + MINUTE, 2.0, 1.0, true)
  }

  function LaterSample(): ArcSample {
    EarlierSample().(start := HOUR + MINUTE, end := HOUR + 2 * MINUTE)
  }

  function UpsertAll<K, R>(samples: seq<ArcSample>, key: ArcSample -> K, insert: ArcSample -> R,
                           merge: (R, ArcSample) -> R): map<K, R>
  {
    if |samples| == 0 then map[]
    else Upsert(UpsertAll(samples[..|samples| - 1], key, insert, merge), key, insert, merge, samples[|samples| - 1])
  }

  /** The table of these samples holds the cell of the later one, which the filter lets through. */
  predicate StagnationKept(samples: seq<ArcSample>, changedAt: Time) {
    var table, k := UpsertAll(samples, StagnationKey, FreshStagnation, MergeStagnation), StagnationKey(LaterSample());
    k in table && Retained(k.hourStart, table[k].firstStart, HOUR, changedAt)
  }

  predicate FlowDwellKept(samples: seq<ArcSample>, changedAt: Time) {
    var table, k := UpsertAll(samples, FlowDwellKey, FreshFlowDwell, MergeFlowDwell), FlowDwellKey(LaterSample());
    k in table && Retained(k.hourStart, table[k].firstStart, HOUR, changedAt)
  }

  /** The filter drops a sample from after the change together with its cell, in either table;
      alone in its cell it is kept. */
  lemma {:induction false} LaterSampleGoesWithItsCell()
    ensures var changedAt, alone, both := LaterSample().start, [LaterSample()], [EarlierSample(), LaterSample()];
      && StagnationKept(alone, changedAt) && !StagnationKept(both, changedAt)
      && FlowDwellKept(alone, changedAt) && !FlowDwellKept(both, changedAt)
  {
    hide Bucket;
    var earlier, later := EarlierSample(), LaterSample();
    assert [later][..0] == [] && [earlier, later][..1] == [earlier] && [earlier][..0] == [];
    assert StagnationKey(earlier) == StagnationKey(later) && FlowDwellKey(earlier) == FlowDwellKey(later);
  }
}
