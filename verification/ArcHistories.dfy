/** The arc history query over all routes, and what its rows say of the raw samples. */
module ArcHistories {
  import opened Basics
  import opened Seqs
  import opened Sorting
  import opened LeastSquares
  import opened FlowSensitivity
  import opened Buckets
  import opened Quantiles
  import opened Domain
  import opened SensorSets
  import opened ArcTables
  import opened ArcSummary

  /** When the sensors of a route last changed. */
  function RouteChangedAt(table: SetTable, routeId: Id): Time {
    SetChangedAt(table, RouteAnchor(routeId))
  }

  ghost function RouteSamples(samples: seq<ArcSample>, table: SetTable, routeId: Id, since: Time): seq<ArcSample> {
    RetainedSamples(samples, StagnationKey, routeId, since, RouteChangedAt(table, routeId))
  }

  ghost function RouteFlowDwellSamples(samples: seq<ArcSample>, table: SetTable, routeId: Id,
      since: Time): seq<ArcSample> {
    RetainedSamples(samples, FlowDwellKey, routeId, since, RouteChangedAt(table, routeId))
  }

  /** The samples are of windows that began in the same hour. */
  predicate SameHour(a: ArcSample, b: ArcSample) {
    a.start - a.start % HOUR == b.start - b.start % HOUR
  }

  predicate InOneStagnationCell(a: ArcSample, b: ArcSample) {
    && SameHour(a, b) && a.routeId == b.routeId && a.sameSensorFlow == b.sameSensorFlow
    && Bucket(a.stagnation) == Bucket(b.stagnation)
  }

  predicate InOneFlowDwellCell(a: ArcSample, b: ArcSample) {
    && SameHour(a, b) && a.routeId == b.routeId && Bucket(a.flow) == Bucket(b.flow)
    && (a.flow > 0.0 && b.flow > 0.0 ==> Bucket(a.stagnation / a.flow) == Bucket(b.stagnation / b.flow))
  }

  /** The window of the sample began before the sensors of its route last changed. */
  predicate IsOld(table: SetTable, s: ArcSample) {
    && RouteAnchor(s.routeId) in table && table[RouteAnchor(s.routeId)].changedAt != 0
    && s.start < table[RouteAnchor(s.routeId)].changedAt
  }

  /** A row is of the samples of its route whose hour began at `since` or later, and in whose cell none is
      from before the sensors of the route last changed. */
  lemma {:induction false} RouteSamplesAre(samples: seq<ArcSample>, table: SetTable, routeId: Id, since: Time)
    ensures RouteSamples(samples, table, routeId, since) == Filter(samples, (s: ArcSample) =>
              && s.routeId == routeId && s.start - s.start % HOUR >= since
              && !exists t :: t in samples && InOneStagnationCell(t, s) && IsOld(table, t))
    ensures RouteFlowDwellSamples(samples, table, routeId, since) == Filter(samples, (s: ArcSample) =>
              && s.routeId == routeId && s.start - s.start % HOUR >= since
              && !exists t :: t in samples && InOneFlowDwellCell(t, s) && IsOld(table, t))
  {
    StagnationSamplesAre(samples, table, routeId, since);
    FlowDwellSamplesAre(samples, table, routeId, since);
  }

  lemma {:induction false} StagnationSamplesAre(samples: seq<ArcSample>, table: SetTable, routeId: Id, since: Time)
    ensures RouteSamples(samples, table, routeId, since) == Filter(samples, (s: ArcSample) =>
              && s.routeId == routeId && s.start - s.start % HOUR >= since
              && !exists t :: t in samples && InOneStagnationCell(t, s) && IsOld(table, t))
  {
    var changedAt := RouteChangedAt(table, routeId);
    forall s: ArcSample, t: ArcSample | s.routeId == routeId
      ensures StagnationKey(t) == StagnationKey(s) <==> InOneStagnationCell(t, s)
      ensures InOneStagnationCell(t, s) ==> (IsOld(table, t) <==> changedAt != 0 && t.start < changedAt)
    {
      hide Bucket;
    }
    hide StagnationKey, InOneStagnationCell, IsOld, RouteChangedAt;
    FilterAgrees(samples,
      (s: ArcSample) => s.routeId == routeId && SampleRetained(samples, StagnationKey, since, changedAt, s),
      (s: ArcSample) =>
        && s.routeId == routeId && s.start - s.start % HOUR >= since
        && !exists t :: t in samples && InOneStagnationCell(t, s) && IsOld(table, t));
  }

  lemma {:induction false} FlowDwellSamplesAre(samples: seq<ArcSample>, table: SetTable, routeId: Id, since: Time)
    ensures RouteFlowDwellSamples(samples, table, routeId, since) == Filter(samples, (s: ArcSample) =>
              && s.routeId == routeId && s.start - s.start % HOUR >= since
              && !exists t :: t in samples && InOneFlowDwellCell(t, s) && IsOld(table, t))
  {
    var changedAt := RouteChangedAt(table, routeId);
    forall s: ArcSample, t: ArcSample | s.routeId == routeId
      ensures FlowDwellKey(t) == FlowDwellKey(s) <==> InOneFlowDwellCell(t, s)
      ensures InOneFlowDwellCell(t, s) ==> (IsOld(table, t) <==> changedAt != 0 && t.start < changedAt)
    {
      SameFlowDwellCell(t, s);
      hide FlowDwellKey;
    }
    hide FlowDwellKey, InOneFlowDwellCell, IsOld, RouteChangedAt;
    FilterAgrees(samples,
      (s: ArcSample) => s.routeId == routeId && SampleRetained(samples, FlowDwellKey, since, changedAt, s),
      (s: ArcSample) =>
        && s.routeId == routeId && s.start - s.start % HOUR >= since
        && !exists t :: t in samples && InOneFlowDwellCell(t, s) && IsOld(table, t));
  }

  /** Two flows of one bucket are both positive or neither is. */
  lemma {:induction false} SameFlowDwellCell(a: ArcSample, b: ArcSample)
    ensures FlowDwellKey(a) == FlowDwellKey(b) <==> InOneFlowDwellCell(a, b)
  {
    assert Bucket(a.flow) == Bucket(b.flow) ==> (a.flow > 0.0 <==> b.flow > 0.0);
  }

  /** A route without retained flow and dwell cells has the zero summary. */
  ghost predicate FlowDwellSummarises(d: FlowDwellSummary, retained: seq<ArcSample>) {
    if |retained| == 0 then d == NO_FLOW_DWELL else SummarisesFlowDwell(d, retained)
  }

  ghost predicate RowIsRight(h: ArcHistory, samples: seq<ArcSample>, table: SetTable, since: Time) {
    && Summarises(h, RouteSamples(samples, table, h.routeId, since))
    && FlowDwellSummarises(h.flowDwell, RouteFlowDwellSamples(samples, table, h.routeId, since))
  }

  /** One row for each route that has retained samples, in order, each of which is right. */
  ghost predicate IsArcHistory(histories: seq<ArcHistory>, samples: seq<ArcSample>, table: SetTable, since: Time) {
    && StrictlySorted(Routes(histories), Before)
    && (forall r :: r in Routes(histories) <==> |RouteSamples(samples, table, r, since)| > 0)
    && (forall i :: 0 <= i < |histories| ==> RowIsRight(histories[i], samples, table, since))
  }

  function Routes(histories: seq<ArcHistory>): seq<Id> {
    Map(histories, (h: ArcHistory) => h.routeId)
  }

  function RetainedRoutes(stagnation: map<StagnationCell, StagnationRow>, table: SetTable, since: Time): set<Id> {
    set k | k in stagnation
      && Retained(k.hourStart, stagnation[k].firstStart, since, RouteChangedAt(table, k.routeId)) :: k.routeId
  }

  lemma {:induction false} RoutesAreRetained(stagnation: map<StagnationCell, StagnationRow>,
      samples: seq<ArcSample>, table: SetTable, since: Time, r: Id)
    requires StagnationIsRight(stagnation, samples)
    ensures r in RetainedRoutes(stagnation, table, since) <==> |RouteSamples(samples, table, r, since)| > 0
  {
    var changedAt := RouteChangedAt(table, r);
    var rows := RetainedStagnation(stagnation, r, since, changedAt);
    StagnationRows(stagnation, samples, r, since, changedAt);
    var retained := RouteSamples(samples, table, r, since);
    FilterMembers(samples, (s: ArcSample) => StagnationKey(s) in rows.Keys);
    CellMembers(samples, StagnationKey, rows.Keys);
    if |retained| > 0 {
      var s := retained[0];
      assert s in retained;
      assert StagnationKey(s) in rows.Keys;
    }
    if r in RetainedRoutes(stagnation, table, since) {
      var k :| k in stagnation
        && Retained(k.hourStart, stagnation[k].firstStart, since, RouteChangedAt(table, k.routeId)) && k.routeId == r;
      assert k in rows;
      GroupMembers(samples, StagnationKey, k);
      assert Group(samples, StagnationKey, k)[0] in Group(samples, StagnationKey, k);
      assert Group(samples, StagnationKey, k)[0] in retained;
    }
  }

  lemma {:induction false} CellMembers<K>(samples: seq<ArcSample>, key: ArcSample -> K, cells: set<K>)
    ensures forall s :: s in InCells(samples, key, cells) <==> s in samples && key(s) in cells
  {
    FilterMembers(samples, (s: ArcSample) => key(s) in cells);
  }

  lemma {:induction false} WithFlowDwell(h: ArcHistory, d: FlowDwellSummary, retained: seq<ArcSample>)
    requires Summarises(h, retained)
    ensures Summarises(h.(flowDwell := d), retained)
  {
  }

  method RowOfRoute(stagnation: map<StagnationCell, StagnationRow>, flowDwell: map<FlowDwellCell, FlowDwellRow>,
                    table: SetTable, routeId: Id, since: Time, ghost samples: seq<ArcSample>)
    returns (h: ArcHistory)
    requires StagnationIsRight(stagnation, samples) && FlowDwellIsRight(flowDwell, samples)
    requires |RouteSamples(samples, table, routeId, since)| > 0
    ensures h.routeId == routeId && RowIsRight(h, samples, table, since)
  {
    var changedAt := RouteChangedAt(table, routeId);
    h := SummarizeRoute(stagnation, routeId, since, changedAt, samples);
    var d := SummarizeFlowDwell(flowDwell, routeId, since, changedAt, samples);
    WithFlowDwell(h, d, RouteSamples(samples, table, routeId, since));
    h := h.(flowDwell := d);
  }

  ghost predicate IsRowOf(h: ArcHistory, routeId: Id, samples: seq<ArcSample>, table: SetTable, since: Time) {
    h.routeId == routeId && RowIsRight(h, samples, table, since)
  }

  /** Every row is right, and they are the rows of the first routes in order. */
  ghost predicate AreRowsOf(histories: seq<ArcHistory>, routes: seq<Id>, samples: seq<ArcSample>, table: SetTable,
      since: Time) {
    && |histories| <= |routes|
    && forall i :: 0 <= i < |histories| ==> IsRowOf(histories[i], routes[i], samples, table, since)
  }

  lemma {:induction false} AppendRow(histories: seq<ArcHistory>, routes: seq<Id>, h: ArcHistory,
      samples: seq<ArcSample>, table: SetTable, since: Time)
    requires AreRowsOf(histories, routes, samples, table, since) && |histories| < |routes|
    requires IsRowOf(h, routes[|histories|], samples, table, since)
    ensures AreRowsOf(histories + [h], routes, samples, table, since)
  {
    var isRow := (i: int, x: ArcHistory) => 0 <= i < |routes| && IsRowOf(x, routes[i], samples, table, since);
    AppendAll(histories, h, isRow);
    var all := histories + [h];
    assert forall i :: 0 <= i < |all| ==> isRow(i, all[i]);
  }

  method SummarizeArcHistory(stagnation: map<StagnationCell, StagnationRow>,
      flowDwell: map<FlowDwellCell, FlowDwellRow>, table: SetTable, since: Time, ghost samples: seq<ArcSample>)
    returns (histories: seq<ArcHistory>)
    requires StagnationIsRight(stagnation, samples) && FlowDwellIsRight(flowDwell, samples)
    ensures IsArcHistory(histories, samples, table, since)
  {
    IdOrder();
    var routes := Sorted(RetainedRoutes(stagnation, table, since), Before);
    forall r
      ensures r in routes <==> |RouteSamples(samples, table, r, since)| > 0
    {
      RoutesAreRetained(stagnation, samples, table, since, r);
    }
    histories := RowsOfRoutes(stagnation, flowDwell, table, routes, since, samples);
    assert Routes(histories) == routes;
  }

  method RowsOfRoutes(stagnation: map<StagnationCell, StagnationRow>, flowDwell: map<FlowDwellCell, FlowDwellRow>,
                      table: SetTable, routes: seq<Id>, since: Time, ghost samples: seq<ArcSample>)
    returns (histories: seq<ArcHistory>)
    requires StagnationIsRight(stagnation, samples) && FlowDwellIsRight(flowDwell, samples)
    requires forall r :: r in routes ==> |RouteSamples(samples, table, r, since)| > 0
    ensures AreRowsOf(histories, routes, samples, table, since) && |histories| == |routes|
  {
    histories := [];
    for i := 0 to |routes|
      invariant AreRowsOf(histories, routes, samples, table, since) && |histories| == i
    {
      assert routes[i] in routes;
      var h := RowOfRoute(stagnation, flowDwell, table, routes[i], since, samples);
      AppendRow(histories, routes, h, samples, table, since);
      histories := histories + [h];
    }
  }

  /** The best line through enough points with varied flows falls by e per unit of flow. */
  ghost predicate HasSensitivity(points: seq<Sample>, e: real) {
    |points| >= 12 && FlowsVary(points) && e > 0.0 && IsBestSlope(points, -e)
  }

  /** The sensitivity of a row, which is computed from sums alone, is the negated slope of the
      best line through the retained samples themselves: those of one unchanged sensor when there
      are enough of them, all otherwise. */
  lemma {:induction false} SensitivityOfRow(h: ArcHistory, retained: seq<ArcSample>, e: real)
    requires Summarises(h, retained)
    ensures h.sameSensorFlow.xx >= 0.0 && h.flow.xx >= 0.0
    ensures var same := SameSensorPoints(retained);
      var points := if |same| >= 12 then same else ArcPoints(retained);
      FlowSensitivityEta(h.sameSensorFlow, h.flow) == Some(e) <==> HasSensitivity(points, e)
  {
    SquareSumNonNegative(SameSensorPoints(retained));
    SquareSumNonNegative(ArcPoints(retained));
    EtaIsNegatedBestSlope(SameSensorPoints(retained), e);
    EtaIsNegatedBestSlope(ArcPoints(retained), e);
  }

  function Stagnations(samples: seq<ArcSample>): seq<real> {
    Map(samples, (s: ArcSample) => s.stagnation)
  }

  /** The reported p90 is the bucket of the true one, which it misses by at most one part in 101. */
  lemma {:induction false} P90OfRow(h: ArcHistory, retained: seq<ArcSample>) returns (v: real)
    requires Summarises(h, retained)
    ensures IsQuantile(Stagnations(retained), 0.9, v) && h.p90Stagnation == Bucket(v)
    ensures v > 0.0 ==> v - v / 101.0 <= h.p90Stagnation <= v + v / 101.0
  {
    assert Map(retained, StagnationBucket) == BucketsOf(Stagnations(retained));
    v := BucketQuantileAccurate(Stagnations(retained), 0.9, h.p90Stagnation);
  }

  /** How long people dwell on an arc that has flow. */
  function Dwells(samples: seq<ArcSample>): seq<real> {
    Map(samples, (s: ArcSample) => if s.flow > 0.0 then s.stagnation / s.flow else 0.0)
  }

  function Flows(samples: seq<ArcSample>): seq<real> {
    Map(samples, (s: ArcSample) => s.flow)
  }

  lemma {:induction false} FlowQuantileIs(retained: seq<ArcSample>, q: real) returns (v: real)
    requires |retained| > 0 && q <= 1.0
    ensures IsQuantile(Flows(retained), q, v) && FlowQuantile(retained, q) == Bucket(v)
  {
    assert Map(retained, FlowBucket) == BucketsOf(Flows(retained));
    v := BucketQuantileAccurate(Flows(retained), q, FlowQuantile(retained, q));
  }

  /** The samples that flow freely: those with flow whose bucket is between those of two flows. */
  function Between(samples: seq<ArcSample>, low: real, high: real): seq<ArcSample> {
    Filter(samples, (s: ArcSample) => Bucket(low) <= Bucket(s.flow) <= Bucket(high) && s.flow > 0.0)
  }

  lemma {:induction false} FreeFlowingIs(retained: seq<ArcSample>) returns (low: real, high: real)
    requires |retained| > 0
    ensures IsQuantile(Flows(retained), 0.25, low) && IsQuantile(Flows(retained), 0.75, high)
    ensures FreeFlowing(retained) == Between(retained, low, high)
  {
    low := FlowQuantileIs(retained, 0.25);
    high := FlowQuantileIs(retained, 0.75);
    var from, until := FlowQuantile(retained, 0.25), FlowQuantile(retained, 0.75);
    FilterAgrees(retained, (s: ArcSample) => InBand(s, from, until) && s.flow > 0.0,
                 (s: ArcSample) => Bucket(low) <= Bucket(s.flow) <= Bucket(high) && s.flow > 0.0);
    hide Bucket, FlowQuantile, IsQuantile;
  }

  /** The reported p90 of the flow is the bucket of the true one. */
  lemma {:induction false} FlowP90OfRow(d: FlowDwellSummary, retained: seq<ArcSample>) returns (v: real)
    requires SummarisesFlowDwell(d, retained)
    ensures IsQuantile(Flows(retained), 0.9, v) && d.flowP90 == Bucket(v)
    ensures v > 0.0 ==> v - v / 101.0 <= d.flowP90 <= v + v / 101.0
  {
    v := FlowQuantileIs(retained, 0.9);
    if v > 0.0 {
      BucketAccurate(v);
    }
  }

  /** The reported free-flow dwell is the bucket of the true median dwell of the samples whose flow
      buckets are between those of the quartiles of the flows; without any of them with flow there is none. */
  lemma {:induction false} FreeFlowDwellOfRow(d: FlowDwellSummary, retained: seq<ArcSample>)
    returns (low: real, high: real, v: real)
    requires SummarisesFlowDwell(d, retained)
    ensures IsQuantile(Flows(retained), 0.25, low) && IsQuantile(Flows(retained), 0.75, high)
    ensures d.freeFlowDwellMin == None <==> |Between(retained, low, high)| == 0
    ensures d.freeFlowDwellMin.Some? ==> d.freeFlowDwellMin.value == Bucket(v)
    ensures d.freeFlowDwellMin.Some? ==> IsQuantile(Dwells(Between(retained, low, high)), 0.5, v)
    ensures d.freeFlowDwellMin.Some? && v > 0.0 ==>
              v - v / 101.0 <= d.freeFlowDwellMin.value <= v + v / 101.0
  {
    low, high := FreeFlowingIs(retained);
    v := 0.0;
    if d.freeFlowDwellMin.Some? {
      v := MedianDwellIs(retained, low, high, d.freeFlowDwellMin.value);
    }
  }

  lemma {:induction false} MedianDwellIs(retained: seq<ArcSample>, low: real, high: real, b: real)
    returns (v: real)
    requires MedianDwell(Between(retained, low, high)) == Some(b)
    ensures IsQuantile(Dwells(Between(retained, low, high)), 0.5, v) && b == Bucket(v)
    ensures v > 0.0 ==> v - v / 101.0 <= b <= v + v / 101.0
  {
    var free := Between(retained, low, high);
    FilterMembers(retained, (s: ArcSample) => Bucket(low) <= Bucket(s.flow) <= Bucket(high) && s.flow > 0.0);
    forall i | 0 <= i < |free|
      ensures DwellOf(free[i]) == Bucket(Dwells(free)[i])
    {
      assert free[i] in free;
    }
    assert Map(free, DwellOf) == BucketsOf(Dwells(free));
    v := BucketQuantileAccurate(Dwells(free), 0.5, b);
  }

  /** The flow quantiles are in order. */
  lemma {:induction false} FlowQuantilesOrdered(retained: seq<ArcSample>)
    requires |retained| > 0
    ensures FlowQuantile(retained, 0.25) <= FlowQuantile(retained, 0.75) <= FlowQuantile(retained, 0.9)
  {
    var flows := Map(retained, FlowBucket);
    QuantileMonotone(flows, 0.25, 0.75, QuantileOf(flows, 0.25), QuantileOf(flows, 0.75));
    QuantileMonotone(flows, 0.75, 0.9, QuantileOf(flows, 0.75), QuantileOf(flows, 0.9));
  }

  /** There is no free-flow dwell exactly when no retained sample between the quartiles of the
      flows has any flow, which is exactly when the upper quartile has none. */
  lemma {:induction false} FreeFlowDwellAbsent(d: FlowDwellSummary, retained: seq<ArcSample>)
    requires SummarisesFlowDwell(d, retained)
    ensures d.freeFlowDwellMin == None <==> FlowQuantile(retained, 0.75) == 0.0
    ensures d.freeFlowDwellMin == None
       <==> forall s :: s in retained && InBand(s, FlowQuantile(retained, 0.25), FlowQuantile(retained, 0.75))
              ==> s.flow <= 0.0
  {
    var low, high := FlowQuantile(retained, 0.25), FlowQuantile(retained, 0.75);
    var free := FreeFlowing(retained);
    FlowQuantilesOrdered(retained);
    FilterMembers(retained, (s: ArcSample) => InBand(s, low, high) && s.flow > 0.0);
    var s := AtQuantile(retained, 0.75);
    if high > 0.0 {
      assert s in free;
    }
    if |free| > 0 {
      assert free[0] in free;
    }
  }

  lemma {:induction false} AtQuantile(retained: seq<ArcSample>, q: real) returns (s: ArcSample)
    requires |retained| > 0 && q <= 1.0
    ensures s in retained && Bucket(s.flow) == FlowQuantile(retained, q)
  {
    var flows := Map(retained, FlowBucket);
    var i :| 0 <= i < |flows| && flows[i] == QuantileOf(flows, q);
    s := retained[i];
  }
}
