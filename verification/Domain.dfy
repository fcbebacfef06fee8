/** The values that observation cycles compose, store and hand on. */
module Domain {
  import opened Basics

  /** A graph element: a route when the route ID is set, otherwise a point. */
  datatype GraphAnchor = GraphAnchor(pointId: Id, routeId: Id)

  function PointAnchor(id: Id): GraphAnchor {
    GraphAnchor(id, "")
  }

  function RouteAnchor(id: Id): GraphAnchor {
    GraphAnchor("", id)
  }

  /** Exactly one of the two IDs is set, as the anchor_sensor_sets table demands. */
  predicate Exclusive(a: GraphAnchor) {
    (a.pointId == "") != (a.routeId == "")
  }

  /** Anchors are ordered by route ID, then by point ID. */
  predicate AnchorBefore(a: GraphAnchor, b: GraphAnchor) {
    Before(a.routeId, b.routeId) || (a.routeId == b.routeId && Before(a.pointId, b.pointId))
  }

  datatype MeasurementMethod = Camera | QR

  datatype ObservationPointMapping = ObservationPointMapping(pointId: Id, anchor: GraphAnchor, kind: MeasurementMethod)

  datatype ObservationPointState = Active | Offline | Disabled

  datatype Measurement = Measurement(
    pointId: Id,
    windowStart: Time,
    windowEnd: Time,
    countIn: int,
    countOut: int,
    meanDetectedPeople: Option<real>)
  {
    function RateIn(): real {
      Rate(countIn)
    }

    function RateOut(): real {
      Rate(countOut)
    }

    /** Counted people per minute of the window. */
    function Rate(count: int): real {
      if windowEnd - windowStart <= 0 then 0.0 else count as real / Minutes(windowEnd - windowStart)
    }
  }

  datatype MeasurementError = InvalidMeasurementWindow | NegativeCount | InvalidDetectedPeople

  datatype NewMeasurementResult = Accepted(measurement: Measurement) | Rejected(error: MeasurementError)

  function NewMeasurement(pointId: Id, windowStart: Time, windowEnd: Time, countIn: int, countOut: int,
                          meanDetectedPeople: Option<real>): NewMeasurementResult
  {
    if windowEnd <= windowStart then Rejected(InvalidMeasurementWindow)
    else if countIn < 0 || countOut < 0 then Rejected(NegativeCount)
    else if meanDetectedPeople.Some? && meanDetectedPeople.value < 0.0 then Rejected(InvalidDetectedPeople)
    else Accepted(Measurement(pointId, windowStart, windowEnd, countIn, countOut, meanDetectedPeople))
  }

  /** A measurement is accepted exactly when its window is not empty and nothing it counts is negative. Then
      its rates give back its counts, and are never negative. */
  lemma {:induction false} AcceptedRates(pointId: Id, windowStart: Time, windowEnd: Time, countIn: int,
      countOut: int, people: Option<real>)
    ensures var r := NewMeasurement(pointId, windowStart, windowEnd, countIn, countOut, people);
      && (r.Accepted? <==>
            windowStart < windowEnd && countIn >= 0 && countOut >= 0 && (people.Some? ==> people.value >= 0.0))
      && (r.Accepted? ==>
            var m := r.measurement;
            && m == Measurement(pointId, windowStart, windowEnd, countIn, countOut, people)
            && m.RateIn() >= 0.0 && PerMinute(m.RateIn(), windowEnd - windowStart, countIn)
            && m.RateOut() >= 0.0 && PerMinute(m.RateOut(), windowEnd - windowStart, countOut))
  {
    if windowStart < windowEnd && countIn >= 0 && countOut >= 0 {
      RateGivesCount(countIn, windowEnd - windowStart);
      RateGivesCount(countOut, windowEnd - windowStart);
    }
  }

  /** Over that many microseconds the rate per minute gives the count. */
  predicate PerMinute(rate: real, d: Duration, count: int) {
    Times(rate, d as real) == count as real * 60_000_000.0
  }

  lemma {:induction false} RateGivesCount(count: int, d: Duration)
    requires count >= 0 && d > 0
    ensures count as real / Minutes(d) >= 0.0 && PerMinute(count as real / Minutes(d), d, count)
  {
    var minutes := Minutes(d);
    var rate := count as real / minutes;
    assert rate * minutes == count as real;
    assert rate * d as real == rate * minutes * 60_000_000.0;
  }

  datatype PointScore = PointScore(
    pointId: Id,
    peopleScore: Option<real>,
    occupancyDelta: Option<real>,
    exhaustive: bool)

  datatype RouteScore = RouteScore(
    routeId: Id,
    forward: real,
    backward: real,
    scalarFlow: Option<real>,
    stagnationScore: Option<real>,
    exhaustive: bool,
    sameSensorFlow: bool)

  datatype MissingAnchors = MissingAnchors(pointIds: seq<Id>, routeIds: seq<Id>)

  datatype Snapshot = Snapshot(
    id: Id,
    windowStart: Time,
    windowEnd: Time,
    pointScores: seq<PointScore>,
    routeScores: seq<RouteScore>,
    missing: MissingAnchors,
    resolutions: map<GraphAnchor, Duration>)

  datatype Gaps = Gaps(
    heldPointScores: seq<PointScore>,
    heldRouteScores: seq<RouteScore>,
    invalidPointIds: seq<Id>,
    invalidRouteIds: seq<Id>)

  /** The observation points that compose an anchor; a zero changedAt means they never changed. */
  datatype SensorSet = SensorSet(anchor: GraphAnchor, pointIds: seq<Id>, changedAt: Time)

  /** What the optimiser answered about a snapshot; encoded messages are strings. */
  datatype OptimizationOutcome = OptimizationOutcome(
    snapshotId: Id,
    serverTime: Time,
    verdict: string,
    detectionState: string,
    optimizationResult: Option<string>,
    feedbackValues: Option<string>,
    diagnostics: Option<string>)

  /** The outcome of composing a snapshot. Reals have no NaN, so a composition whose scores hold
      one is kept apart; so is a composition that dereferences an absent people count. */
  datatype NewSnapshotResult =
    | Composed(snapshot: Snapshot, gaps: Gaps, sensors: seq<SensorSet>)
    | NotANumber(sensors: seq<SensorSet>)
    | NilDereference

  lemma {:induction false} AnchorBeforeIrreflexive(a: GraphAnchor)
    ensures !AnchorBefore(a, a)
  {
    BeforeIrreflexive(a.routeId);
    BeforeIrreflexive(a.pointId);
  }

  lemma {:induction false} AnchorBeforeTransitive(a: GraphAnchor, b: GraphAnchor, c: GraphAnchor)
    requires AnchorBefore(a, b) && AnchorBefore(b, c)
    ensures AnchorBefore(a, c)
  {
    if Before(a.routeId, b.routeId) && Before(b.routeId, c.routeId) {
      BeforeTransitive(a.routeId, b.routeId, c.routeId);
    } else if a.routeId == b.routeId == c.routeId {
      BeforeTransitive(a.pointId, b.pointId, c.pointId);
    }
  }

  lemma {:induction false} AnchorBeforeTotal(a: GraphAnchor, b: GraphAnchor)
    ensures a == b || AnchorBefore(a, b) || AnchorBefore(b, a)
  {
    BeforeTotal(a.routeId, b.routeId);
    BeforeTotal(a.pointId, b.pointId);
  }
}
