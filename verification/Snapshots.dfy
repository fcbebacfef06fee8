/** What composing a snapshot from measurements and mappings means. */
module Snapshots {
  import opened Basics
  import opened Seqs
  import opened Sorting
  import opened Domain
  import opened OccupancyTrend

  const MAX_HOLD: Duration := 15 * MINUTE

  datatype Inputs = Inputs(
    windowStart: Time,
    windowEnd: Time,
    measurements: seq<Measurement>,
    mappings: seq<ObservationPointMapping>,
    states: map<Id, ObservationPointState>)
  {
    predicate IsQr(p: Id) {
      exists i :: 0 <= i < |mappings| && mappings[i].kind.QR? && mappings[i].pointId == p
    }

    /** A measurement that can stand for its point, and is recent enough to be held. */
    predicate Usable(m: Measurement) {
      && (IsQr(m.pointId)
          || (m.pointId in states && !states[m.pointId].Disabled? && m.meanDetectedPeople.Some?))
      && windowEnd - m.windowEnd <= MAX_HOLD
    }

    predicate Accepts(m: ObservationPointMapping) {
      m.pointId in states || m.kind.QR?
    }

    function WindowMinutes(): real {
      Minutes(windowEnd - windowStart)
    }
  }

  /** Everything the usable measurements of one point add up to. */
  datatype Reading = Reading(latest: Measurement, detected: seq<real>, trend: seq<PeopleSample>, countIn: int)

  /** The usable measurements of one point, in the order they were listed. */
  function PointGroup(in_: Inputs, measurements: seq<Measurement>, p: Id): seq<Measurement> {
    Filter(measurements, (m: Measurement) => m.pointId == p && in_.Usable(m))
  }

  /** The measurement that ends last; the first listed of those that end together. */
  function LatestOf(group: seq<Measurement>): Measurement
    requires |group| > 0
  {
    if |group| == 1 then group[0]
    else
      var rest := LatestOf(group[..|group| - 1]);
      if group[|group| - 1].windowEnd > rest.windowEnd then group[|group| - 1] else rest
  }

  lemma {:induction false} LatestIsMember(group: seq<Measurement>)
    requires |group| > 0
    ensures LatestOf(group) in group
    ensures forall m :: m in group ==> m.windowEnd <= LatestOf(group).windowEnd
  {
    if |group| > 1 {
      var rest := group[..|group| - 1];
      assert group == rest + [group[|group| - 1]];
      LatestIsMember(rest);
    }
  }

  function DetectedIn(in_: Inputs, m: Measurement): Option<real> {
    if m.windowEnd > in_.windowStart then m.meanDetectedPeople else None
  }

  function TrendSampleIn(in_: Inputs, m: Measurement): Option<PeopleSample> {
    if m.meanDetectedPeople.Some? && in_.windowEnd - m.windowEnd < OCCUPANCY_TREND_SPAN
    then Some(PeopleSample(m.windowEnd, m.meanDetectedPeople.value)) else None
  }

  function CountIn(in_: Inputs, m: Measurement): Option<int> {
    if m.windowEnd > in_.windowStart then Some(m.countIn) else None
  }

  function ReadingOf(in_: Inputs, group: seq<Measurement>): Reading
    requires |group| > 0
  {
    Reading(LatestOf(group),
            FilterMap(group, (m: Measurement) => DetectedIn(in_, m)),
            FilterMap(group, (m: Measurement) => TrendSampleIn(in_, m)),
            SumInt(FilterMap(group, (m: Measurement) => CountIn(in_, m))))
  }

  function MeanOf(values: seq<real>): Option<real> {
    if |values| == 0 then None else Some(Sum(values) / |values| as real)
  }

  /** What one camera says; no detected people is a mean over nothing or an absent count. */
  datatype CameraScore = CameraScore(rateIn: real, rateOut: real, detected: Option<real>, trend: Option<real>)

  /** What a point contributes to the anchors it is mapped to. */
  datatype PointValue = PointValue(isFresh: bool, score: CameraScore, countIn: int, resolution: Duration)

  function ValueOf(in_: Inputs, r: Reading): PointValue {
    var isFresh := r.latest.windowEnd > in_.windowStart;
    PointValue(
      isFresh,
      CameraScore(r.latest.RateIn(), r.latest.RateOut(),
                  if isFresh then MeanOf(r.detected) else r.latest.meanDetectedPeople,
                  Trend(r.trend)),
      r.countIn,
      r.latest.windowEnd - r.latest.windowStart)
  }

  /** The value of a point, if it has usable measurements. */
  function PointValueOf(in_: Inputs, p: Id): Option<PointValue> {
    var group := PointGroup(in_, in_.measurements, p);
    if |group| == 0 then None else Some(ValueOf(in_, ReadingOf(in_, group)))
  }

  datatype AnchorScore = AnchorScore(
    freshScores: seq<CameraScore>,
    heldScores: seq<CameraScore>,
    cameras: nat,
    qrRateIn: real,
    sensors: seq<Id>,
    qr: bool,
    resolution: Duration)

  function FreshScoreOf(in_: Inputs, m: ObservationPointMapping): Option<CameraScore> {
    match PointValueOf(in_, m.pointId)
    case Some(v) => if m.kind.Camera? && v.isFresh then Some(v.score) else None
    case None => None
  }

  function HeldScoreOf(in_: Inputs, m: ObservationPointMapping): Option<CameraScore> {
    match PointValueOf(in_, m.pointId)
    case Some(v) => if m.kind.Camera? && !v.isFresh then Some(v.score) else None
    case None => None
  }

  function QrRateOf(in_: Inputs, m: ObservationPointMapping): Option<real>
    requires in_.windowStart < in_.windowEnd
  {
    match PointValueOf(in_, m.pointId)
    case Some(v) => if m.kind.QR? then Some(v.countIn as real / in_.WindowMinutes()) else None
    case None => None
  }

  function ResolutionOf(in_: Inputs, m: ObservationPointMapping): Option<Duration> {
    match PointValueOf(in_, m.pointId)
    case Some(v) => Some(v.resolution)
    case None => None
  }

  /** The longest of the durations, and at least zero. */
  function Longest(durations: seq<Duration>): (r: Duration)
    ensures r >= 0 && (r == 0 || r in durations) && forall d :: d in durations ==> d <= r
  {
    if |durations| == 0 then 0
    else
      var rest := Longest(durations[..|durations| - 1]);
      assert durations == durations[..|durations| - 1] + [durations[|durations| - 1]];
      if durations[|durations| - 1] > rest then durations[|durations| - 1] else rest
  }

  /** The accepted mappings of one anchor, in the order they were listed. */
  function AnchorGroup(in_: Inputs, mappings: seq<ObservationPointMapping>,
      a: GraphAnchor): seq<ObservationPointMapping> {
    Filter(mappings, (m: ObservationPointMapping) => m.anchor == a && in_.Accepts(m))
  }

  function ScoreOf(in_: Inputs, group: seq<ObservationPointMapping>): AnchorScore
    requires in_.windowStart < in_.windowEnd
  {
    AnchorScore(
      FilterMap(group, (m: ObservationPointMapping) => FreshScoreOf(in_, m)),
      FilterMap(group, (m: ObservationPointMapping) => HeldScoreOf(in_, m)),
      |Filter(group, (m: ObservationPointMapping) => m.kind.Camera?)|,
      Sum(FilterMap(group, (m: ObservationPointMapping) => QrRateOf(in_, m))),
      Map(group, (m: ObservationPointMapping) => m.pointId),
      exists i :: 0 <= i < |group| && group[i].kind.QR?,
      Longest(FilterMap(group, (m: ObservationPointMapping) => ResolutionOf(in_, m))))
  }

  datatype Confidence = OK | Hold | Invalid

  /** A composed score; `undefined` marks people averaged over a score that has none. */
  datatype ComposedScore = ComposedScore(
    confidence: Confidence,
    rateIn: real,
    rateOut: real,
    detected: Option<real>,
    occupancyDelta: Option<real>,
    undefined: bool)

  function AverageOf(level: Confidence, scores: seq<CameraScore>, qrRateIn: real): ComposedScore
    requires |scores| > 0
  {
    var n := |scores| as real;
    ComposedScore(
      level,
      Sum(Map(scores, (s: CameraScore) => s.rateIn)) / n + qrRateIn,
      Sum(Map(scores, (s: CameraScore) => s.rateOut)) / n,
      Some(Sum(Map(scores, (s: CameraScore) => s.detected.GetOr(0.0))) / n),
      MeanOf(FilterMap(scores, (s: CameraScore) => s.trend)),
      exists i :: 0 <= i < |scores| && scores[i].detected == None)
  }

  function Compose(s: AnchorScore): ComposedScore {
    if |s.freshScores| > 0 then AverageOf(OK, s.freshScores, s.qrRateIn)
    else if |s.heldScores| > 0 then AverageOf(Hold, s.heldScores, s.qrRateIn)
    else if s.cameras > 0 then ComposedScore(Invalid, 0.0, 0.0, None, None, false)
    else ComposedScore(OK, s.qrRateIn, 0.0, None, Some(s.qrRateIn), false)
  }

  function DistinctSensors(s: AnchorScore): seq<Id> {
    SortedDistinct(s.sensors, Before)
  }

  /** Everything the snapshot says about one anchor. */
  datatype AnchorOutcome = AnchorOutcome(composed: ComposedScore, sensors: seq<Id>, qr: bool, resolution: Duration) {
    function Route(id: Id): RouteScore {
      if qr then
        RouteScore(id, 0.0, 0.0, Some(composed.rateIn + composed.rateOut), composed.detected, false, false)
      else
        RouteScore(id, composed.rateIn, composed.rateOut, None, composed.detected, true,
                   composed.detected.Some? && |sensors| == 1)
    }

    function Point(id: Id): PointScore {
      PointScore(id, composed.detected, composed.occupancyDelta, !qr)
    }

    predicate Is(level: Confidence) {
      composed.confidence == level
    }
  }

  function OutcomeOfScore(s: AnchorScore): AnchorOutcome {
    AnchorOutcome(Compose(s), DistinctSensors(s), s.qr, s.resolution)
  }

  function OutcomeOf(in_: Inputs, a: GraphAnchor): AnchorOutcome
    requires in_.windowStart < in_.windowEnd
  {
    OutcomeOfScore(ScoreOf(in_, AnchorGroup(in_, in_.mappings, a)))
  }

  /** The anchors of the accepted mappings, each once, in order. */
  function Anchors(in_: Inputs): seq<GraphAnchor> {
    SortedDistinct(AcceptedAnchors(in_, in_.mappings), AnchorBefore)
  }

  function AcceptedAnchors(in_: Inputs, mappings: seq<ObservationPointMapping>): seq<GraphAnchor> {
    FilterMap(mappings, (m: ObservationPointMapping) => if in_.Accepts(m) then Some(m.anchor) else None)
  }

  /** Some camera has only held readings, and the last of them has no people count. */
  predicate Panics(in_: Inputs) {
    exists i :: 0 <= i < |in_.mappings| && in_.Accepts(in_.mappings[i]) && HeldWithoutPeople(in_, in_.mappings[i])
  }

  predicate HeldWithoutPeople(in_: Inputs, m: ObservationPointMapping) {
    HeldScoreOf(in_, m).Some? && HeldScoreOf(in_, m).value.detected == None
  }

  function RoutesAt(anchors: seq<GraphAnchor>, outcomes: map<GraphAnchor, AnchorOutcome>,
      level: Confidence): seq<RouteScore> {
    FilterMap(anchors, (a: GraphAnchor) =>
      if a in outcomes && a.routeId != "" && outcomes[a].Is(level) then Some(outcomes[a].Route(a.routeId)) else None)
  }

  function PointsAt(anchors: seq<GraphAnchor>, outcomes: map<GraphAnchor, AnchorOutcome>,
      level: Confidence): seq<PointScore> {
    FilterMap(anchors, (a: GraphAnchor) =>
      if a in outcomes && a.routeId == "" && a.pointId != "" && outcomes[a].Is(level)
      then Some(outcomes[a].Point(a.pointId)) else None)
  }

  function InvalidRoutes(anchors: seq<GraphAnchor>, outcomes: map<GraphAnchor, AnchorOutcome>): seq<Id> {
    FilterMap(anchors, (a: GraphAnchor) =>
      if a in outcomes && a.routeId != "" && outcomes[a].Is(Invalid) then Some(a.routeId) else None)
  }

  function InvalidPoints(anchors: seq<GraphAnchor>, outcomes: map<GraphAnchor, AnchorOutcome>): seq<Id> {
    FilterMap(anchors, (a: GraphAnchor) =>
      if a in outcomes && a.routeId == "" && a.pointId != "" && outcomes[a].Is(Invalid) then Some(a.pointId) else None)
  }

  function MissingRoutes(anchors: seq<GraphAnchor>, outcomes: map<GraphAnchor, AnchorOutcome>): seq<Id> {
    FilterMap(anchors, (a: GraphAnchor) =>
      if a in outcomes && a.routeId != "" && !outcomes[a].Is(OK) then Some(a.routeId) else None)
  }

  function MissingPoints(anchors: seq<GraphAnchor>, outcomes: map<GraphAnchor, AnchorOutcome>): seq<Id> {
    FilterMap(anchors, (a: GraphAnchor) =>
      if a in outcomes && a.routeId == "" && a.pointId != "" && !outcomes[a].Is(OK) then Some(a.pointId) else None)
  }

  predicate Named(a: GraphAnchor) {
    a.routeId != "" || a.pointId != ""
  }

  function ComposedSets(anchors: seq<GraphAnchor>, outcomes: map<GraphAnchor, AnchorOutcome>): seq<SensorSet> {
    FilterMap(anchors, (a: GraphAnchor) =>
      if a in outcomes && Named(a) && outcomes[a].Is(OK)
      then Some(SensorSet(a, outcomes[a].sensors, ZERO_TIME)) else None)
  }

  function Resolutions(anchors: seq<GraphAnchor>,
      outcomes: map<GraphAnchor, AnchorOutcome>): map<GraphAnchor, Duration> {
    map a | a in anchors && a in outcomes && outcomes[a].resolution > 0 :: outcomes[a].resolution
  }

  /** A stored score would hold a mean over nothing. */
  predicate HasUndefined(anchors: seq<GraphAnchor>, outcomes: map<GraphAnchor, AnchorOutcome>) {
    exists i :: 0 <= i < |anchors| && UndefinedAt(anchors[i], outcomes)
  }

  predicate UndefinedAt(a: GraphAnchor, outcomes: map<GraphAnchor, AnchorOutcome>) {
    a in outcomes && Named(a) && outcomes[a].Is(OK) && outcomes[a].composed.undefined
  }

  /** The snapshot, its gaps and its sensor sets, given what is known of each anchor. */
  function Assemble(id: Id, windowStart: Time, windowEnd: Time, anchors: seq<GraphAnchor>,
                    outcomes: map<GraphAnchor, AnchorOutcome>): NewSnapshotResult
  {
    if HasUndefined(anchors, outcomes) then NotANumber(ComposedSets(anchors, outcomes))
    else
      Composed(
        Snapshot(id, windowStart, windowEnd, PointsAt(anchors, outcomes, OK), RoutesAt(anchors, outcomes, OK),
                 MissingAnchors(MissingPoints(anchors, outcomes), MissingRoutes(anchors, outcomes)),
                 Resolutions(anchors, outcomes)),
        Gaps(PointsAt(anchors, outcomes, Hold), RoutesAt(anchors, outcomes, Hold),
             InvalidPoints(anchors, outcomes), InvalidRoutes(anchors, outcomes)),
        ComposedSets(anchors, outcomes))
  }

  function OutcomesOf(in_: Inputs): map<GraphAnchor, AnchorOutcome>
    requires in_.windowStart < in_.windowEnd
  {
    map a | a in Anchors(in_) :: OutcomeOf(in_, a)
  }

  function SnapshotOf(id: Id, in_: Inputs): NewSnapshotResult
    requires in_.windowStart < in_.windowEnd
  {
    if Panics(in_) then NilDereference
    else Assemble(id, in_.windowStart, in_.windowEnd, Anchors(in_), OutcomesOf(in_))
  }

  lemma {:induction false} EndsWithWindow(id: Id, in_: Inputs)
    requires in_.windowStart < in_.windowEnd
    ensures SnapshotOf(id, in_).Composed? ==> SnapshotOf(id, in_).snapshot.windowEnd == in_.windowEnd
  {
  }
}
