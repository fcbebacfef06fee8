/** What the values of a snapshot are, said of the measurements and mappings alone, and that what is composed
    of each point and each anchor is just that. */
module SnapshotReference {
  import opened Basics
  import opened Seqs
  import opened Sorting
  import opened Domain
  import opened OccupancyTrend
  import opened Snapshots
  import opened SnapshotClasses

  /** x can stand for the point: it ended at most 15 minutes before the window did, and the point is
      a QR location, or it is known and enabled and x counts people. */
  ghost predicate StandsFor(in_: Inputs, p: Id, x: Measurement) {
    && x.pointId == p && in_.windowEnd - x.windowEnd <= 15 * MINUTE
    && ((exists m :: m in in_.mappings && m.kind == QR && m.pointId == p)
        || (p in in_.states && in_.states[p] != Disabled && x.meanDetectedPeople != None))
  }

  /** Measurement k ends last of those that can stand for the point, and is the first listed of
      those that end together. */
  ghost predicate IsLatest(in_: Inputs, p: Id, k: int) {
    && 0 <= k < |in_.measurements| && StandsFor(in_, p, in_.measurements[k])
    && forall j :: 0 <= j < |in_.measurements| && j != k && StandsFor(in_, p, in_.measurements[j]) ==>
         && in_.measurements[j].windowEnd <= in_.measurements[k].windowEnd
         && (in_.measurements[j].windowEnd == in_.measurements[k].windowEnd ==> k < j)
  }

  ghost function Latest(in_: Inputs, p: Id): Option<Measurement> {
    if k :| IsLatest(in_, p, k) then Some(in_.measurements[k]) else None
  }

  /** The people counted at the point by measurements that end in the window. */
  ghost function PeopleCounted(in_: Inputs, p: Id): seq<real> {
    FilterMap(in_.measurements, (x: Measurement) =>
      if StandsFor(in_, p, x) && in_.windowStart < x.windowEnd then x.meanDetectedPeople else None)
  }

  /** The people counted at the point over the last five minutes of the window. */
  ghost function RecentPeople(in_: Inputs, p: Id): seq<PeopleSample> {
    FilterMap(in_.measurements, (x: Measurement) =>
      if StandsFor(in_, p, x) && x.meanDetectedPeople.Some? && in_.windowEnd - 5 * MINUTE < x.windowEnd
      then Some(PeopleSample(x.windowEnd, x.meanDetectedPeople.value)) else None)
  }

  /** Everyone who came in at the point by measurements that end in the window. */
  ghost function CameIn(in_: Inputs, p: Id): int {
    SumInt(FilterMap(in_.measurements, (x: Measurement) =>
      if StandsFor(in_, p, x) && in_.windowStart < x.windowEnd then Some(x.countIn) else None))
  }

  /** The points of known cameras of the anchor whose latest measurement ends in the window. */
  ghost function FreshCameras(in_: Inputs, a: GraphAnchor): seq<Id> {
    FilterMap(in_.mappings, (m: ObservationPointMapping) =>
      if m.anchor == a && m.kind == Camera && m.pointId in in_.states && Latest(in_, m.pointId).Some?
         && in_.windowStart < Latest(in_, m.pointId).value.windowEnd
      then Some(m.pointId) else None)
  }

  /** Those whose latest measurement ended before it, and is only held. */
  ghost function HeldCameras(in_: Inputs, a: GraphAnchor): seq<Id> {
    FilterMap(in_.mappings, (m: ObservationPointMapping) =>
      if m.anchor == a && m.kind == Camera && m.pointId in in_.states && Latest(in_, m.pointId).Some?
         && Latest(in_, m.pointId).value.windowEnd <= in_.windowStart
      then Some(m.pointId) else None)
  }

  /** The cameras that the anchor is scored by: fresh ones, or else held ones. */
  ghost function ScoredCameras(in_: Inputs, a: GraphAnchor): seq<Id> {
    if |FreshCameras(in_, a)| > 0 then FreshCameras(in_, a) else HeldCameras(in_, a)
  }

  ghost function QrLocations(in_: Inputs, a: GraphAnchor): seq<Id> {
    FilterMap(in_.mappings, (m: ObservationPointMapping) =>
      if m.anchor == a && m.kind == QR then Some(m.pointId) else None)
  }

  /** The mean of some values, and zero of none. */
  function Average(values: seq<real>): real {
    if |values| == 0 then 0.0 else Sum(values) / |values| as real
  }

  ghost function RateIn(in_: Inputs, p: Id): real {
    match Latest(in_, p)
    case Some(x) => x.RateIn()
    case None => 0.0
  }

  ghost function RateOut(in_: Inputs, p: Id): real {
    match Latest(in_, p)
    case Some(x) => x.RateOut()
    case None => 0.0
  }

  /** The mean of the people counted in the window, or the people of the measurement that is held. */
  ghost function PeopleAt(in_: Inputs, p: Id): real {
    match Latest(in_, p)
    case Some(x) =>
      if in_.windowStart < x.windowEnd then Average(PeopleCounted(in_, p)) else x.meanDetectedPeople.GetOr(0.0)
    case None => 0.0
  }

  ghost function ForwardOf(in_: Inputs, a: GraphAnchor): real {
    Average(Map(ScoredCameras(in_, a), p => RateIn(in_, p)))
  }

  ghost function BackwardOf(in_: Inputs, a: GraphAnchor): real {
    Average(Map(ScoredCameras(in_, a), p => RateOut(in_, p)))
  }

  ghost function CameInRate(in_: Inputs, p: Id): real
    requires in_.windowStart < in_.windowEnd
  {
    CameIn(in_, p) as real / Minutes(in_.windowEnd - in_.windowStart)
  }

  /** Everyone who came in at the QR locations of the anchor, per minute of the window. */
  ghost function QrRate(in_: Inputs, a: GraphAnchor): real
    requires in_.windowStart < in_.windowEnd
  {
    Sum(Map(QrLocations(in_, a), p => CameInRate(in_, p)))
  }

  ghost function PeopleOf(in_: Inputs, a: GraphAnchor): Option<real> {
    if |ScoredCameras(in_, a)| == 0 then None
    else Some(Average(Map(ScoredCameras(in_, a), p => PeopleAt(in_, p))))
  }

  /** The mean of the trends at the scored cameras that have one; without any camera, the QR rate. */
  ghost function DeltaOf(in_: Inputs, a: GraphAnchor): Option<real>
    requires in_.windowStart < in_.windowEnd
  {
    if |ScoredCameras(in_, a)| == 0 then Some(QrRate(in_, a))
    else
      var trends := FilterMap(ScoredCameras(in_, a), p => Trend(RecentPeople(in_, p)));
      if |trends| == 0 then None else Some(Average(trends))
  }

  /** All accepted mappings of the anchor are of one point. */
  ghost predicate OnePoint(in_: Inputs, a: GraphAnchor) {
    forall m, n :: m in in_.mappings && n in in_.mappings && AcceptedAt(in_, a, m) && AcceptedAt(in_, a, n)
      ==> m.pointId == n.pointId
  }

  /** The mapping maps a known point, or a QR location, to the anchor. */
  ghost predicate AcceptedAt(in_: Inputs, a: GraphAnchor, m: ObservationPointMapping) {
    m.anchor == a && (m.kind == QR || m.pointId in in_.states)
  }

  /** The route score of the anchor. */
  ghost function RouteScoreOf(in_: Inputs, a: GraphAnchor): RouteScore
    requires in_.windowStart < in_.windowEnd
  {
    if |QrLocations(in_, a)| > 0 then
      RouteScore(a.routeId, 0.0, 0.0, Some(ForwardOf(in_, a) + QrRate(in_, a) + BackwardOf(in_, a)), PeopleOf(in_, a),
                 false, false)
    else
      RouteScore(a.routeId, ForwardOf(in_, a), BackwardOf(in_, a), None, PeopleOf(in_, a), true,
                 PeopleOf(in_, a).Some? && OnePoint(in_, a))
  }

  /** The point score of the anchor. */
  ghost function PointScoreOf(in_: Inputs, a: GraphAnchor): PointScore
    requires in_.windowStart < in_.windowEnd
  {
    PointScore(a.pointId, PeopleOf(in_, a), DeltaOf(in_, a), |QrLocations(in_, a)| == 0)
  }

  /** Some mapping of a known point, or of a QR location, is to the anchor. */
  ghost predicate IsAccepted(in_: Inputs, a: GraphAnchor) {
    exists m :: m in in_.mappings && AcceptedAt(in_, a, m)
  }

  /** A camera at a known point is mapped to the anchor. */
  ghost predicate IsFilmed(in_: Inputs, a: GraphAnchor) {
    exists m :: m in in_.mappings && m.anchor == a && m.kind == Camera && m.pointId in in_.states
  }

  /** The anchor is scored in the snapshot. */
  ghost predicate IsScored(in_: Inputs, a: GraphAnchor) {
    IsAccepted(in_, a) && (|FreshCameras(in_, a)| > 0 || !IsFilmed(in_, a))
  }

  /** The anchor is scored by readings that are only held. */
  ghost predicate IsHeld(in_: Inputs, a: GraphAnchor) {
    |FreshCameras(in_, a)| == 0 && |HeldCameras(in_, a)| > 0
  }

  /** The anchor has cameras, and none of them has anything to score by. */
  ghost predicate IsInvalid(in_: Inputs, a: GraphAnchor) {
    IsFilmed(in_, a) && |FreshCameras(in_, a)| == 0 && |HeldCameras(in_, a)| == 0
  }

  lemma {:induction false} UsableMeans(in_: Inputs, p: Id, x: Measurement)
    ensures StandsFor(in_, p, x) <==> x.pointId == p && in_.Usable(x)
  {
    if m :| m in in_.mappings && m.kind == QR && m.pointId == p {
      var i :| 0 <= i < |in_.mappings| && in_.mappings[i] == m;
    }
    if i :| 0 <= i < |in_.mappings| && in_.mappings[i].kind.QR? && in_.mappings[i].pointId == p {
      assert in_.mappings[i] in in_.mappings;
    }
  }

  /** The latest of the kept measurements is the first of those that end last. */
  lemma {:induction false} LatestOfKept(s: seq<Measurement>, keep: Measurement -> bool) returns (k: int)
    requires |Filter(s, keep)| > 0
    ensures 0 <= k < |s| && keep(s[k]) && LatestOf(Filter(s, keep)) == s[k]
    ensures forall j :: 0 <= j < |s| && j != k && keep(s[j])
              ==> s[j].windowEnd <= s[k].windowEnd && (s[j].windowEnd == s[k].windowEnd ==> k < j)
  {
    var rest, l := s[..|s| - 1], |s| - 1;
    if !keep(s[l]) {
      k := LatestOfKept(rest, keep);
    } else if |Filter(rest, keep)| == 0 {
      FilterMembers(rest, keep);
      forall j | 0 <= j < l
        ensures !keep(s[j])
      {
        assert s[j] in rest;
      }
      k := l;
    } else {
      k := LatestOfKept(rest, keep);
      var kept := Filter(rest, keep);
      assert (kept + [s[l]])[..|kept|] == kept;
      if s[l].windowEnd > s[k].windowEnd {
        k := l;
      }
    }
  }

  lemma {:induction false} GroupStands(in_: Inputs, p: Id)
    ensures PointGroup(in_, in_.measurements, p) == Filter(in_.measurements, (x: Measurement) => StandsFor(in_, p, x))
  {
    forall x
      ensures StandsFor(in_, p, x) <==> x.pointId == p && in_.Usable(x)
    {
      UsableMeans(in_, p, x);
    }
    FilterAgrees(in_.measurements, (m: Measurement) => m.pointId == p && in_.Usable(m),
                 (x: Measurement) => StandsFor(in_, p, x));
  }

  lemma {:induction false} OnlyLatest(in_: Inputs, p: Id, j: int, k: int)
    requires IsLatest(in_, p, j) && IsLatest(in_, p, k)
    ensures j == k
  {
  }

  lemma {:induction false} LatestMeans(in_: Inputs, p: Id)
    ensures var group := PointGroup(in_, in_.measurements, p);
            Latest(in_, p) == if |group| == 0 then None else Some(LatestOf(group))
  {
    GroupStands(in_, p);
    FilterMembers(in_.measurements, (x: Measurement) => StandsFor(in_, p, x));
    if |PointGroup(in_, in_.measurements, p)| == 0 {
      forall k
        ensures !IsLatest(in_, p, k)
      {
        if 0 <= k < |in_.measurements| {
          assert in_.measurements[k] in in_.measurements;
        }
      }
    } else {
      var k := LatestOfKept(in_.measurements, (x: Measurement) => StandsFor(in_, p, x));
      assert IsLatest(in_, p, k);
      forall j | IsLatest(in_, p, j)
        ensures j == k
      {
        OnlyLatest(in_, p, j, k);
      }
    }
  }

  lemma {:induction false} CountedIs(in_: Inputs, p: Id)
    ensures FilterMap(PointGroup(in_, in_.measurements, p), (m: Measurement) => DetectedIn(in_, m))
         == PeopleCounted(in_, p)
  {
    GroupStands(in_, p);
    PickKept(in_.measurements, (x: Measurement) => StandsFor(in_, p, x), (m: Measurement) => DetectedIn(in_, m),
      (x: Measurement) =>
        if StandsFor(in_, p, x) && in_.windowStart < x.windowEnd then x.meanDetectedPeople else None);
    hide StandsFor;
  }

  lemma {:induction false} RecentIs(in_: Inputs, p: Id)
    ensures FilterMap(PointGroup(in_, in_.measurements, p), (m: Measurement) => TrendSampleIn(in_, m))
         == RecentPeople(in_, p)
  {
    GroupStands(in_, p);
    PickKept(in_.measurements, (x: Measurement) => StandsFor(in_, p, x), (m: Measurement) => TrendSampleIn(in_, m),
      (x: Measurement) =>
        if StandsFor(in_, p, x) && x.meanDetectedPeople.Some? && in_.windowEnd - 5 * MINUTE < x.windowEnd
        then Some(PeopleSample(x.windowEnd, x.meanDetectedPeople.value)) else None);
    hide StandsFor;
  }

  lemma {:induction false} CameInIs(in_: Inputs, p: Id)
    ensures SumInt(FilterMap(PointGroup(in_, in_.measurements, p), (m: Measurement) => CountIn(in_, m)))
         == CameIn(in_, p)
  {
    GroupStands(in_, p);
    PickKept(in_.measurements, (x: Measurement) => StandsFor(in_, p, x), (m: Measurement) => CountIn(in_, m),
      (x: Measurement) => if StandsFor(in_, p, x) && in_.windowStart < x.windowEnd then Some(x.countIn) else None);
    hide StandsFor;
  }

  /** What the point contributes, said of its latest measurement and of those that end in the window. */
  lemma {:induction false} ValueIs(in_: Inputs, p: Id)
    ensures PointValueOf(in_, p).Some? <==> Latest(in_, p).Some?
    ensures PointValueOf(in_, p).Some? ==>
              var v, x := PointValueOf(in_, p).value, Latest(in_, p).value;
              && (v.isFresh <==> in_.windowStart < x.windowEnd)
              && v.score.rateIn == x.RateIn() && v.score.rateOut == x.RateOut()
              && v.score.detected.GetOr(0.0) == PeopleAt(in_, p)
              && v.score.trend == Trend(RecentPeople(in_, p))
              && v.countIn == CameIn(in_, p) && v.resolution == x.windowEnd - x.windowStart
  {
    LatestMeans(in_, p);
    CountedIs(in_, p);
    RecentIs(in_, p);
    CameInIs(in_, p);
    hide Latest, FilterMap, PointGroup, SumInt, Trend, LatestOf, Sum, PeopleCounted, RecentPeople, CameIn;
  }

  /** Nobody came in where nothing was measured. */
  lemma {:induction false} NobodyCameIn(in_: Inputs, p: Id)
    requires Latest(in_, p) == None
    ensures CameIn(in_, p) == 0
  {
    LatestMeans(in_, p);
    CameInIs(in_, p);
    hide Latest, CameIn;
  }

  /** What the camera at the point says. */
  ghost function CameraOf(in_: Inputs, p: Id): CameraScore {
    match PointValueOf(in_, p)
    case Some(v) => v.score
    case None => CameraScore(0.0, 0.0, None, Trend(RecentPeople(in_, p)))
  }

  lemma {:induction false} CameraIs(in_: Inputs, p: Id)
    ensures var s := CameraOf(in_, p);
      && s.rateIn == RateIn(in_, p) && s.rateOut == RateOut(in_, p) && s.detected.GetOr(0.0) == PeopleAt(in_, p)
      && s.trend == Trend(RecentPeople(in_, p))
  {
    ValueIs(in_, p);
    hide PointValueOf, Latest, RecentPeople, Trend, PeopleCounted;
  }

  lemma {:induction false} FreshScoresAre(in_: Inputs, a: GraphAnchor)
    ensures FilterMap(AnchorGroup(in_, in_.mappings, a), (m: ObservationPointMapping) => FreshScoreOf(in_, m))
         == Map(FreshCameras(in_, a), p => CameraOf(in_, p))
  {
    var f := (m: ObservationPointMapping) => FreshScoreOf(in_, m);
    var source := (m: ObservationPointMapping) =>
      if m.anchor == a && m.kind == Camera && m.pointId in in_.states && Latest(in_, m.pointId).Some?
         && in_.windowStart < Latest(in_, m.pointId).value.windowEnd
      then Some(m.pointId) else None;
    var keep := (m: ObservationPointMapping) => m.anchor == a && in_.Accepts(m);
    var both := (m: ObservationPointMapping) => if keep(m) then f(m) else None;
    forall m
      ensures both(m) == match source(m) case Some(p) => Some(CameraOf(in_, p)) case None => None
    {
      ValueIs(in_, m.pointId);
      hide PointValueOf, Latest, RecentPeople, Trend, PeopleCounted;
    }
    PickKept(in_.mappings, keep, f, both);
    PickThenMap(in_.mappings, both, source, p => CameraOf(in_, p));
  }

  lemma {:induction false} HeldScoresAre(in_: Inputs, a: GraphAnchor)
    ensures FilterMap(AnchorGroup(in_, in_.mappings, a), (m: ObservationPointMapping) => HeldScoreOf(in_, m))
         == Map(HeldCameras(in_, a), p => CameraOf(in_, p))
  {
    var f := (m: ObservationPointMapping) => HeldScoreOf(in_, m);
    var source := (m: ObservationPointMapping) =>
      if m.anchor == a && m.kind == Camera && m.pointId in in_.states && Latest(in_, m.pointId).Some?
         && Latest(in_, m.pointId).value.windowEnd <= in_.windowStart
      then Some(m.pointId) else None;
    var keep := (m: ObservationPointMapping) => m.anchor == a && in_.Accepts(m);
    var both := (m: ObservationPointMapping) => if keep(m) then f(m) else None;
    forall m
      ensures both(m) == match source(m) case Some(p) => Some(CameraOf(in_, p)) case None => None
    {
      ValueIs(in_, m.pointId);
      hide PointValueOf, Latest, RecentPeople, Trend, PeopleCounted;
    }
    PickKept(in_.mappings, keep, f, both);
    PickThenMap(in_.mappings, both, source, p => CameraOf(in_, p));
  }

  lemma {:induction false} QrRateAt(in_: Inputs, m: ObservationPointMapping)
    requires in_.windowStart < in_.windowEnd
    ensures var rate := CameInRate(in_, m.pointId);
      && (QrRateOf(in_, m).Some? ==> m.kind == QR && QrRateOf(in_, m).value == rate)
      && (m.kind == QR && QrRateOf(in_, m) == None ==> rate == 0.0)
      && (m.kind == QR ==> in_.Accepts(m))
  {
    ValueIs(in_, m.pointId);
    if Latest(in_, m.pointId) == None {
      NobodyCameIn(in_, m.pointId);
    }
    hide PointValueOf, Latest, RecentPeople, Trend, PeopleCounted, CameIn;
  }

  lemma {:induction false} QrRateIs(in_: Inputs, a: GraphAnchor)
    requires in_.windowStart < in_.windowEnd
    ensures Sum(FilterMap(AnchorGroup(in_, in_.mappings, a), (m: ObservationPointMapping) => QrRateOf(in_, m)))
         == QrRate(in_, a)
  {
    var f := (m: ObservationPointMapping) => QrRateOf(in_, m);
    var source := (m: ObservationPointMapping) =>
      if m.anchor == a && m.kind == QR then Some(m.pointId) else None;
    var value := p => CameInRate(in_, p);
    var keep := (m: ObservationPointMapping) => m.anchor == a && in_.Accepts(m);
    forall m {
      QrRateAt(in_, m);
    }
    hide QrRateOf, CameInRate, Inputs.Accepts, Sum, FilterMap, Filter;
    SumOfPicked(in_.mappings, keep, f, source, value, (m: ObservationPointMapping) =>
      if m.anchor == a && m.kind == QR then CameInRate(in_, m.pointId) else 0.0);
  }

  /** Averages over the cameras, said of what each point measured. */
  lemma {:induction false} AveragesAre(in_: Inputs, level: Confidence, points: seq<Id>, qrRateIn: real)
    requires |points| > 0
    ensures var c := AverageOf(level, Map(points, p => CameraOf(in_, p)), qrRateIn);
      && c.rateIn == Average(Map(points, p => RateIn(in_, p))) + qrRateIn
      && c.rateOut == Average(Map(points, p => RateOut(in_, p)))
      && c.detected == Some(Average(Map(points, p => PeopleAt(in_, p))))
      && c.occupancyDelta == MeanOf(FilterMap(points, p => Trend(RecentPeople(in_, p))))
  {
    forall p {
      CameraIs(in_, p);
    }
    hide CameraOf, Latest, RecentPeople, Trend, PeopleCounted, RateIn, RateOut, PeopleAt;
    MapOfMap(points, p => CameraOf(in_, p), (s: CameraScore) => s.rateIn, p => RateIn(in_, p));
    MapOfMap(points, p => CameraOf(in_, p), (s: CameraScore) => s.rateOut, p => RateOut(in_, p));
    MapOfMap(points, p => CameraOf(in_, p), (s: CameraScore) => s.detected.GetOr(0.0), p => PeopleAt(in_, p));
    FilterMapOfMap(points, p => CameraOf(in_, p), (s: CameraScore) => s.trend, p => Trend(RecentPeople(in_, p)));
  }

  lemma {:induction false} QrIs(in_: Inputs, a: GraphAnchor)
    requires in_.windowStart < in_.windowEnd
    ensures OutcomeOf(in_, a).qr <==> |QrLocations(in_, a)| > 0
  {
    var group := AnchorGroup(in_, in_.mappings, a);
    var source := (m: ObservationPointMapping) => if m.anchor == a && m.kind == QR then Some(m.pointId) else None;
    FilterMembers(in_.mappings, (m: ObservationPointMapping) => m.anchor == a && in_.Accepts(m));
    FilterMapMembers(in_.mappings, source);
    if i :| 0 <= i < |group| && group[i].kind.QR? {
      assert group[i] in group;
      var k :| 0 <= k < |in_.mappings| && in_.mappings[k] == group[i];
      assert source(in_.mappings[k]).Some?;
    }
    if |QrLocations(in_, a)| > 0 {
      assert QrLocations(in_, a)[0] in QrLocations(in_, a);
      var k :| 0 <= k < |in_.mappings| && source(in_.mappings[k]).Some?;
      assert in_.mappings[k] in group;
    }
  }

  lemma {:induction false} GroupIs(in_: Inputs, a: GraphAnchor)
    ensures forall m :: m in AnchorGroup(in_, in_.mappings, a) <==> m in in_.mappings && AcceptedAt(in_, a, m)
  {
    FilterMembers(in_.mappings, (m: ObservationPointMapping) => m.anchor == a && in_.Accepts(m));
  }

  lemma {:induction false} PointsOfMembers(group: seq<ObservationPointMapping>)
    ensures forall p :: p in PointsOf(group) <==> exists m :: m in group && m.pointId == p
  {
    forall p
      ensures p in PointsOf(group) <==> exists m :: m in group && m.pointId == p
    {
      if m :| m in group && m.pointId == p {
        var i :| 0 <= i < |group| && group[i] == m;
        assert PointsOf(group)[i] == p;
      }
    }
  }

  lemma {:induction false} AllOneMeans(group: seq<ObservationPointMapping>)
    ensures AllOne(PointsOf(group))
       <==> |group| > 0 && forall m, n :: m in group && n in group ==> m.pointId == n.pointId
  {
    var ids := PointsOf(group);
    PointsOfMembers(group);
    hide PointsOf;
    assert |ids| > 0 ==> ids[0] in ids;
    if AllOne(ids) {
      assert |group| > 0;
      forall m, n | m in group && n in group
        ensures m.pointId == n.pointId
      {
        assert m.pointId in ids && n.pointId in ids;
      }
    } else if |group| > 0 {
      assert group[0] in group && group[0].pointId in ids;
      var id :| id in ids && id != ids[0];
      var m :| m in group && m.pointId == id;
      var n :| n in group && n.pointId == ids[0];
    }
  }

  lemma {:induction false} OneSensorIs(in_: Inputs, a: GraphAnchor)
    requires in_.windowStart < in_.windowEnd && IsAccepted(in_, a)
    ensures |OutcomeOf(in_, a).sensors| == 1 <==> OnePoint(in_, a)
  {
    var group := AnchorGroup(in_, in_.mappings, a);
    OneSensorMeans(in_, a);
    GroupIs(in_, a);
    AllOneMeans(group);
    hide OutcomeOf, AnchorGroup, AcceptedAt, AllOne, PointsOf;
    var first :| first in in_.mappings && AcceptedAt(in_, a, first);
    assert first in group;
  }

  lemma {:induction false} FilmedIs(in_: Inputs, a: GraphAnchor)
    ensures HasCamera(in_, a) <==> IsFilmed(in_, a)
  {
    if i :| CameraAt(in_, a, i) {
      assert in_.mappings[i] in in_.mappings;
    }
    if m :| m in in_.mappings && m.anchor == a && m.kind == Camera && m.pointId in in_.states {
      var i :| 0 <= i < |in_.mappings| && in_.mappings[i] == m;
      assert CameraAt(in_, a, i);
    }
  }

  lemma {:induction false} CamerasAreFilmed(in_: Inputs, a: GraphAnchor)
    ensures |FreshCameras(in_, a)| > 0 || |HeldCameras(in_, a)| > 0 ==> IsFilmed(in_, a) && IsAccepted(in_, a)
  {
    FilterMapMembers(in_.mappings, (m: ObservationPointMapping) =>
      if m.anchor == a && m.kind == Camera && m.pointId in in_.states && Latest(in_, m.pointId).Some?
         && in_.windowStart < Latest(in_, m.pointId).value.windowEnd
      then Some(m.pointId) else None);
    FilterMapMembers(in_.mappings, (m: ObservationPointMapping) =>
      if m.anchor == a && m.kind == Camera && m.pointId in in_.states && Latest(in_, m.pointId).Some?
         && Latest(in_, m.pointId).value.windowEnd <= in_.windowStart
      then Some(m.pointId) else None);
    hide Latest;
    if |FreshCameras(in_, a)| > 0 {
      assert FreshCameras(in_, a)[0] in FreshCameras(in_, a);
      var i :| 0 <= i < |in_.mappings| && in_.mappings[i].anchor == a && in_.mappings[i].kind == Camera
        && in_.mappings[i].pointId in in_.states;
      assert in_.mappings[i] in in_.mappings && AcceptedAt(in_, a, in_.mappings[i]);
    }
    if |HeldCameras(in_, a)| > 0 {
      assert HeldCameras(in_, a)[0] in HeldCameras(in_, a);
      var i :| 0 <= i < |in_.mappings| && in_.mappings[i].anchor == a && in_.mappings[i].kind == Camera
        && in_.mappings[i].pointId in in_.states;
      assert in_.mappings[i] in in_.mappings && AcceptedAt(in_, a, in_.mappings[i]);
    }
  }

  /** The class of an accepted anchor, said of its cameras and their latest measurements. */
  lemma {:induction false} ClassIs(in_: Inputs, a: GraphAnchor)
    requires in_.windowStart < in_.windowEnd && IsAccepted(in_, a)
    ensures OutcomeOf(in_, a).Is(OK) <==> IsScored(in_, a)
    ensures OutcomeOf(in_, a).Is(Hold) <==> IsHeld(in_, a)
    ensures OutcomeOf(in_, a).Is(Invalid) <==> IsInvalid(in_, a)
  {
    FreshScoresAre(in_, a);
    HeldScoresAre(in_, a);
    FilmedIs(in_, a);
    CamerasAreFilmed(in_, a);
    GroupCameras(in_, a);
    ClassMeans(in_, a);
    hide FreshCameras, HeldCameras, FilterMap, Filter, AnchorGroup, IsFilmed, HasCamera, IsAccepted, OutcomeOf,
      HasFresh, HasHeld, Longest, Sum;
  }

  /** What is composed of an anchor that is not invalid. */
  lemma {:induction false} ComposedIs(in_: Inputs, a: GraphAnchor)
    requires in_.windowStart < in_.windowEnd && IsAccepted(in_, a) && !IsInvalid(in_, a)
    ensures var c := OutcomeOf(in_, a).composed;
      && c.rateIn == ForwardOf(in_, a) + QrRate(in_, a) && c.rateOut == BackwardOf(in_, a)
      && c.detected == PeopleOf(in_, a) && c.occupancyDelta == DeltaOf(in_, a)
  {
    ClassIs(in_, a);
    FreshScoresAre(in_, a);
    HeldScoresAre(in_, a);
    QrRateIs(in_, a);
    if |ScoredCameras(in_, a)| > 0 {
      AveragesAre(in_, if |FreshCameras(in_, a)| > 0 then OK else Hold, ScoredCameras(in_, a), QrRate(in_, a));
    }
    hide FreshCameras, HeldCameras, FilterMap, Filter, AnchorGroup, IsAccepted, Longest, AverageOf,
      Sum, SortedDistinct, QrRate, IsFilmed, CameraOf, RateIn, RateOut, PeopleAt, Trend, RecentPeople;
  }

  lemma {:induction false} RouteIs(in_: Inputs, a: GraphAnchor)
    requires in_.windowStart < in_.windowEnd && IsAccepted(in_, a) && !IsInvalid(in_, a)
    ensures OutcomeOf(in_, a).Route(a.routeId) == RouteScoreOf(in_, a)
  {
    hide *;
    ComposedIs(in_, a);
    QrIs(in_, a);
    OneSensorIs(in_, a);
    RouteFrom(in_, a, OutcomeOf(in_, a));
  }

  lemma {:induction false} RouteFrom(in_: Inputs, a: GraphAnchor, o: AnchorOutcome)
    requires in_.windowStart < in_.windowEnd
    requires o.composed.rateIn == ForwardOf(in_, a) + QrRate(in_, a) && o.composed.rateOut == BackwardOf(in_, a)
    requires o.composed.detected == PeopleOf(in_, a)
    requires (o.qr <==> |QrLocations(in_, a)| > 0) && (|o.sensors| == 1 <==> OnePoint(in_, a))
    ensures o.Route(a.routeId) == RouteScoreOf(in_, a)
  {
    if !o.qr {
      NoQrRate(in_, a);
      hide *;
      assert o.composed.rateIn == ForwardOf(in_, a);
    }
    hide QrLocations, QrRate, ForwardOf, BackwardOf, PeopleOf, DeltaOf, OnePoint;
  }

  lemma {:induction false} PointIs(in_: Inputs, a: GraphAnchor)
    requires in_.windowStart < in_.windowEnd && IsAccepted(in_, a) && !IsInvalid(in_, a)
    ensures OutcomeOf(in_, a).Point(a.pointId) == PointScoreOf(in_, a)
  {
    ComposedIs(in_, a);
    QrIs(in_, a);
    hide OutcomeOf, QrLocations, QrRate, ForwardOf, BackwardOf, PeopleOf, DeltaOf, IsInvalid, IsAccepted;
  }

  lemma {:induction false} NoQrRate(in_: Inputs, a: GraphAnchor)
    requires in_.windowStart < in_.windowEnd && |QrLocations(in_, a)| == 0
    ensures QrRate(in_, a) == 0.0
  {
  }
}
