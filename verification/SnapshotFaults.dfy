/** When a composition is defined at all, and the range its averages stay in. */
module SnapshotFaults {
  import opened Basics
  import opened Seqs
  import opened Domain
  import opened Snapshots
  import opened SnapshotClasses

  /** x is a usable measurement of the point that ends in the window. */
  ghost predicate InWindow(in_: Inputs, p: Id, x: Measurement) {
    x in in_.measurements && x.pointId == p && in_.Usable(x) && x.windowEnd > in_.windowStart
  }

  /** Some measurement of the point that ends in the window counts people. */
  ghost predicate CountsPeople(in_: Inputs, p: Id) {
    exists x :: InWindow(in_, p, x) && x.meanDetectedPeople.Some?
  }

  /** The point is held, and the measurement that would be held counts no people. */
  ghost predicate HoldsNothing(in_: Inputs, p: Id) {
    && Measured(in_, p) && !MeasuredInWindow(in_, p)
    && |PointGroup(in_, in_.measurements, p)| > 0
    && LatestOf(PointGroup(in_, in_.measurements, p)).meanDetectedPeople == None
  }

  /** The point is measured in the window, but never with people. */
  ghost predicate AveragesNothing(in_: Inputs, p: Id) {
    MeasuredInWindow(in_, p) && !CountsPeople(in_, p)
  }

  ghost predicate HoldsNothingAt(in_: Inputs, m: ObservationPointMapping) {
    m.kind.Camera? && in_.Accepts(m) && HoldsNothing(in_, m.pointId)
  }

  ghost predicate AveragesNothingAt(in_: Inputs, m: ObservationPointMapping) {
    m.kind.Camera? && in_.Accepts(m) && AveragesNothing(in_, m.pointId) && Named(m.anchor)
  }

  lemma {:induction false} DetectedMeans(in_: Inputs, p: Id)
    requires MeasuredInWindow(in_, p)
    ensures PointValueOf(in_, p).Some? && PointValueOf(in_, p).value.isFresh
    ensures PointValueOf(in_, p).value.score.detected == None <==> !CountsPeople(in_, p)
  {
    ValueMeans(in_, p);
    var group := PointGroup(in_, in_.measurements, p);
    var f := (m: Measurement) => DetectedIn(in_, m);
    FilterMembers(in_.measurements, (m: Measurement) => m.pointId == p && in_.Usable(m));
    FilterMapMembers(group, f);
    if x :| InWindow(in_, p, x) && x.meanDetectedPeople.Some? {
      assert x in group;
      var k :| 0 <= k < |group| && group[k] == x;
      assert f(group[k]).Some?;
    }
    var detected := FilterMap(group, f);
    if |detected| > 0 {
      assert detected[0] in detected;
      var k :| 0 <= k < |group| && f(group[k]).Some?;
      assert group[k] in group;
      assert InWindow(in_, p, group[k]);
    }
  }

  lemma {:induction false} HeldMeans(in_: Inputs, m: ObservationPointMapping)
    ensures HeldWithoutPeople(in_, m) <==> m.kind.Camera? && HoldsNothing(in_, m.pointId)
  {
    ValueMeans(in_, m.pointId);
  }

  /** Composition dereferences an absent people count exactly when some accepted camera is only
      held, and the measurement to hold counts no people. */
  lemma {:induction false} PanicsExactlyWhen(id: Id, in_: Inputs)
    requires in_.windowStart < in_.windowEnd
    ensures SnapshotOf(id, in_).NilDereference? <==> exists m :: m in in_.mappings && HoldsNothingAt(in_, m)
  {
    if m :| m in in_.mappings && HoldsNothingAt(in_, m) {
      HeldMeans(in_, m);
    }
    if i :| 0 <= i < |in_.mappings| && in_.Accepts(in_.mappings[i]) && HeldWithoutPeople(in_, in_.mappings[i]) {
      HeldMeans(in_, in_.mappings[i]);
      assert HoldsNothingAt(in_, in_.mappings[i]);
    }
  }

  /** Composition stores a mean over nothing exactly when it does not fail before that, and some
      camera of a named anchor is measured in the window, but never with people. */
  lemma {:induction false} NotANumberExactlyWhen(id: Id, in_: Inputs)
    requires in_.windowStart < in_.windowEnd
    ensures SnapshotOf(id, in_).NotANumber?
       <==> !SnapshotOf(id, in_).NilDereference? && exists m :: m in in_.mappings && AveragesNothingAt(in_, m)
  {
    UndefinedExactlyWhen(in_);
    hide HasUndefined, AveragesNothingAt, Anchors, OutcomesOf, Panics, ComposedSets;
  }

  lemma {:induction false} UndefinedExactlyWhen(in_: Inputs)
    requires in_.windowStart < in_.windowEnd
    ensures HasUndefined(Anchors(in_), OutcomesOf(in_)) <==> exists m :: m in in_.mappings && AveragesNothingAt(in_, m)
  {
    if m :| m in in_.mappings && AveragesNothingAt(in_, m) {
      UndefinedAnchor(in_, m);
      AnchorIsUndefined(in_, m);
    }
    hide Anchors, OutcomeOf, AveragesNothing;
    if HasUndefined(Anchors(in_), OutcomesOf(in_)) {
      var k :| 0 <= k < |Anchors(in_)| && UndefinedAt(Anchors(in_)[k], OutcomesOf(in_));
      var m := UndefinedCamera(in_, Anchors(in_)[k]);
    }
  }

  lemma {:induction false} AnchorIsUndefined(in_: Inputs, m: ObservationPointMapping)
    requires in_.windowStart < in_.windowEnd && m in in_.mappings && in_.Accepts(m) && Named(m.anchor)
    requires OutcomeOf(in_, m.anchor).Is(OK) && OutcomeOf(in_, m.anchor).composed.undefined
    ensures HasUndefined(Anchors(in_), OutcomesOf(in_))
  {
    AnchorsMean(in_);
    assert m.anchor in Anchors(in_);
    var k :| 0 <= k < |Anchors(in_)| && Anchors(in_)[k] == m.anchor;
    assert UndefinedAt(Anchors(in_)[k], OutcomesOf(in_));
  }

  lemma {:induction false} UndefinedAnchor(in_: Inputs, m: ObservationPointMapping)
    requires in_.windowStart < in_.windowEnd && m in in_.mappings && AveragesNothingAt(in_, m)
    ensures OutcomeOf(in_, m.anchor).Is(OK) && OutcomeOf(in_, m.anchor).composed.undefined
  {
    DetectedMeans(in_, m.pointId);
    var group := AnchorGroup(in_, in_.mappings, m.anchor);
    var f := (x: ObservationPointMapping) => FreshScoreOf(in_, x);
    FilterMembers(in_.mappings, (x: ObservationPointMapping) => x.anchor == m.anchor && in_.Accepts(x));
    FilterMapMembers(group, f);
    var k :| 0 <= k < |group| && group[k] == m;
    assert f(group[k]).Some?;
    var scores := ScoreOf(in_, group).freshScores;
    assert f(m).value in scores;
    var n :| 0 <= n < |scores| && scores[n] == f(m).value;
    assert scores[n].detected == None;
  }

  lemma {:induction false} UndefinedCamera(in_: Inputs, a: GraphAnchor) returns (m: ObservationPointMapping)
    requires in_.windowStart < in_.windowEnd && Named(a)
    requires OutcomeOf(in_, a).Is(OK) && OutcomeOf(in_, a).composed.undefined
    ensures m in in_.mappings && AveragesNothingAt(in_, m)
  {
    var group := AnchorGroup(in_, in_.mappings, a);
    var f := (x: ObservationPointMapping) => FreshScoreOf(in_, x);
    FilterMembers(in_.mappings, (x: ObservationPointMapping) => x.anchor == a && in_.Accepts(x));
    FilterMapMembers(group, f);
    var scores := ScoreOf(in_, group).freshScores;
    var n :| 0 <= n < |scores| && scores[n].detected == None;
    assert scores[n] in FilterMap(group, f);
    var k :| 0 <= k < |group| && f(group[k]) == Some(scores[n]);
    m := group[k];
    assert m in group;
    ValueMeans(in_, m.pointId);
    DetectedMeans(in_, m.pointId);
  }

  /** No point is mapped both as a camera and as a QR location. */
  ghost predicate OneMethodPerPoint(in_: Inputs) {
    forall m :: m in in_.mappings && m.kind.Camera? ==> !in_.IsQr(m.pointId)
  }

  /** Then every composition is defined. */
  lemma {:induction false} OneMethodPerPointIsDefined(id: Id, in_: Inputs)
    requires in_.windowStart < in_.windowEnd && OneMethodPerPoint(in_)
    ensures SnapshotOf(id, in_).Composed?
  {
    PanicsExactlyWhen(id, in_);
    NotANumberExactlyWhen(id, in_);
    forall m | m in in_.mappings && m.kind.Camera?
      ensures !HoldsNothing(in_, m.pointId) && !AveragesNothing(in_, m.pointId)
    {
      UsablePeople(in_, m.pointId);
    }
  }

  lemma {:induction false} UsablePeople(in_: Inputs, p: Id)
    requires !in_.IsQr(p)
    ensures !HoldsNothing(in_, p) && !AveragesNothing(in_, p)
  {
    var group := PointGroup(in_, in_.measurements, p);
    FilterMembers(in_.measurements, (m: Measurement) => m.pointId == p && in_.Usable(m));
    if |group| > 0 {
      LatestIsMember(group);
    }
    if x :| InWindow(in_, p, x) {
      assert x.meanDetectedPeople.Some?;
    }
  }

  /** A point mapped both ways, with one measurement that counts no people. */
  function BothWays(start: Time, end: Time): Inputs {
    var a := RouteAnchor("r");
    Inputs(HOUR, HOUR + MINUTE, [Measurement("p", start, end, 1, 1, None)],
           [ObservationPointMapping("p", a, Camera), ObservationPointMapping("p", a, QR)], map["p" := Active])
  }

  /** Both faults happen: to a measurement that ended before the window, and to one in it. */
  lemma {:induction false} BothFaultsHappen()
    ensures SnapshotOf("s", BothWays(HOUR - MINUTE, HOUR)).NilDereference?
    ensures SnapshotOf("s", BothWays(HOUR, HOUR + MINUTE)).NotANumber?
  {
    var held, averaged := BothWays(HOUR - MINUTE, HOUR), BothWays(HOUR, HOUR + MINUTE);
    BothWaysUsable(HOUR - MINUTE, HOUR);
    BothWaysUsable(HOUR, HOUR + MINUTE);
    assert HoldsNothingAt(held, held.mappings[0]);
    PanicsExactlyWhen("s", held);
    assert InWindow(averaged, "p", averaged.measurements[0]);
    assert AveragesNothingAt(averaged, averaged.mappings[0]);
    PanicsExactlyWhen("s", averaged);
    NotANumberExactlyWhen("s", averaged);
  }

  lemma {:induction false} BothWaysUsable(start: Time, end: Time)
    requires end <= HOUR + MINUTE <= end + MAX_HOLD
    ensures var in_ := BothWays(start, end);
      in_.Usable(in_.measurements[0]) && PointGroup(in_, in_.measurements, "p") == in_.measurements
  {
    var in_ := BothWays(start, end);
    assert in_.mappings[1].kind.QR? && in_.mappings[1].pointId == "p";
    FilterAppend([], in_.measurements[0], (m: Measurement) => m.pointId == "p" && in_.Usable(m));
    assert in_.measurements == [] + [in_.measurements[0]];
  }

  /** A mean lies between any bounds of what it is over. */
  lemma {:induction false} MeanBetween(values: seq<real>, lo: real, hi: real)
    requires |values| > 0 && forall i :: 0 <= i < |values| ==> lo <= values[i] <= hi
    ensures lo <= Sum(values) / |values| as real <= hi
  {
    SumBetween(values, lo, hi);
    QuotientBetween(Sum(values), |values| as real, lo, hi);
  }

  lemma {:induction false} QuotientBetween(sum: real, n: real, lo: real, hi: real)
    requires n > 0.0 && n * lo <= sum <= n * hi
    ensures lo <= sum / n <= hi
  {
    var q := sum / n;
    assert q * n == sum;
    assert (q - lo) * n >= 0.0 && (hi - q) * n >= 0.0;
  }

  ghost predicate Between(scores: seq<CameraScore>, f: CameraScore -> real, lo: real, hi: real) {
    forall i :: 0 <= i < |scores| ==> lo <= f(scores[i]) <= hi
  }

  lemma {:induction false} AverageBetween(scores: seq<CameraScore>, f: CameraScore -> real, lo: real, hi: real)
    requires |scores| > 0 && Between(scores, f, lo, hi)
    ensures lo <= Sum(Map(scores, f)) / |scores| as real <= hi
  {
    MeanBetween(Map(scores, f), lo, hi);
  }

  /** Averaged rates, people and trends lie between any bounds of those of the cameras. */
  lemma {:induction false} AveragesBetween(level: Confidence, scores: seq<CameraScore>, qrRateIn: real, lo: real,
      hi: real)
    requires |scores| > 0
    ensures var c := AverageOf(level, scores, qrRateIn);
      && (Between(scores, (s: CameraScore) => s.rateIn, lo, hi) ==> lo <= c.rateIn - qrRateIn <= hi)
      && (Between(scores, (s: CameraScore) => s.rateOut, lo, hi) ==> lo <= c.rateOut <= hi)
      && (Between(scores, (s: CameraScore) => s.detected.GetOr(0.0), lo, hi) ==> lo <= c.detected.value <= hi)
      && (c.occupancyDelta.Some? && Between(scores, (s: CameraScore) => s.trend.GetOr(lo), lo, hi)
          ==> lo <= c.occupancyDelta.value <= hi)
  {
    if Between(scores, (s: CameraScore) => s.rateIn, lo, hi) {
      AverageBetween(scores, (s: CameraScore) => s.rateIn, lo, hi);
    }
    if Between(scores, (s: CameraScore) => s.rateOut, lo, hi) {
      AverageBetween(scores, (s: CameraScore) => s.rateOut, lo, hi);
    }
    if Between(scores, (s: CameraScore) => s.detected.GetOr(0.0), lo, hi) {
      AverageBetween(scores, (s: CameraScore) => s.detected.GetOr(0.0), lo, hi);
    }
    if Between(scores, (s: CameraScore) => s.trend.GetOr(lo), lo, hi) {
      TrendsBetween(scores, lo, hi);
    }
  }

  lemma {:induction false} TrendsBetween(scores: seq<CameraScore>, lo: real, hi: real)
    requires Between(scores, (s: CameraScore) => s.trend.GetOr(lo), lo, hi)
    ensures var d := MeanOf(FilterMap(scores, (s: CameraScore) => s.trend)); d.Some? ==> lo <= d.value <= hi
  {
    var trends := FilterMap(scores, (s: CameraScore) => s.trend);
    FilterMapMembers(scores, (s: CameraScore) => s.trend);
    forall i | 0 <= i < |trends|
      ensures lo <= trends[i] <= hi
    {
      assert trends[i] in trends;
    }
    if |trends| > 0 {
      MeanBetween(trends, lo, hi);
    }
  }

  /** The measurement that a camera is scored by: any that ends in the window when the anchor has
      such a camera, and otherwise the one that is held. */
  ghost predicate Scored(in_: Inputs, a: GraphAnchor, p: Id, x: Measurement) {
    if HasFresh(in_, a) then InWindow(in_, p, x)
    else |PointGroup(in_, in_.measurements, p)| > 0 && x == LatestOf(PointGroup(in_, in_.measurements, p))
  }

  /** All people counted in measurements that the cameras of the anchor are scored by are between
      the bounds; a measurement may count none. */
  ghost predicate PeopleBetween(in_: Inputs, a: GraphAnchor, lo: real, hi: real) {
    forall m, x :: m in in_.mappings && m.kind.Camera? && m.anchor == a && in_.Accepts(m)
      && Scored(in_, a, m.pointId, x)
      ==> CountBetween(x, lo, hi)
  }

  predicate CountBetween(x: Measurement, lo: real, hi: real) {
    x.meanDetectedPeople.Some? ==> lo <= x.meanDetectedPeople.value <= hi
  }

  /** In a composed snapshot people are scored for exactly the anchors with a measured camera, fresh
      or held, and they are between any bounds of what the measurements counted. */
  lemma {:induction false} PeopleStayBetween(id: Id, in_: Inputs, a: GraphAnchor, lo: real, hi: real)
    requires in_.windowStart < in_.windowEnd && SnapshotOf(id, in_).Composed? && Named(a)
    requires PeopleBetween(in_, a, lo, hi)
    ensures var c := OutcomeOf(in_, a).composed;
      && (c.detected.Some? <==> HasHeld(in_, a))
      && (c.detected.Some? ==> lo <= c.detected.value <= hi)
  {
    GroupCameras(in_, a);
    PanicsExactlyWhen(id, in_);
    NotANumberExactlyWhen(id, in_);
    hide SnapshotOf;
    var s := ScoreOf(in_, AnchorGroup(in_, in_.mappings, a));
    if HasFresh(in_, a) {
      FreshScoresBetween(in_, a, lo, hi);
      hide ScoreOf, HasFresh, HasHeld, PeopleBetween;
      AveragesBetween(OK, s.freshScores, s.qrRateIn, lo, hi);
    } else if HasHeld(in_, a) {
      HeldScoresBetween(in_, a, lo, hi);
      hide ScoreOf, HasFresh, HasHeld, PeopleBetween;
      AveragesBetween(Hold, s.heldScores, s.qrRateIn, lo, hi);
    }
  }

  lemma {:induction false} FreshScoresBetween(in_: Inputs, a: GraphAnchor, lo: real, hi: real)
    requires in_.windowStart < in_.windowEnd && HasFresh(in_, a) && PeopleBetween(in_, a, lo, hi) && Named(a)
    requires forall m :: m in in_.mappings ==> !AveragesNothingAt(in_, m)
    ensures Between(ScoreOf(in_, AnchorGroup(in_, in_.mappings, a)).freshScores,
                    (s: CameraScore) => s.detected.GetOr(0.0), lo, hi)
  {
    var group := AnchorGroup(in_, in_.mappings, a);
    var f := (x: ObservationPointMapping) => FreshScoreOf(in_, x);
    FilterMembers(in_.mappings, (x: ObservationPointMapping) => x.anchor == a && in_.Accepts(x));
    forall k | 0 <= k < |group| && f(group[k]).Some?
      ensures lo <= f(group[k]).value.detected.GetOr(0.0) <= hi
    {
      var m := group[k];
      assert m in group && !AveragesNothingAt(in_, m);
      ValueMeans(in_, m.pointId);
      assert forall x :: InWindow(in_, m.pointId, x) ==> Scored(in_, a, m.pointId, x);
      CameraBetween(in_, m.pointId, lo, hi);
    }
    FilterMapAll(group, f, (s: CameraScore) => lo <= s.detected.GetOr(0.0) <= hi);
  }

  lemma {:induction false} HeldScoresBetween(in_: Inputs, a: GraphAnchor, lo: real, hi: real)
    requires in_.windowStart < in_.windowEnd && !HasFresh(in_, a) && PeopleBetween(in_, a, lo, hi)
    requires forall m :: m in in_.mappings ==> !HoldsNothingAt(in_, m)
    ensures Between(ScoreOf(in_, AnchorGroup(in_, in_.mappings, a)).heldScores,
                    (s: CameraScore) => s.detected.GetOr(0.0), lo, hi)
  {
    var group := AnchorGroup(in_, in_.mappings, a);
    var f := (x: ObservationPointMapping) => HeldScoreOf(in_, x);
    FilterMembers(in_.mappings, (x: ObservationPointMapping) => x.anchor == a && in_.Accepts(x));
    forall k | 0 <= k < |group| && f(group[k]).Some?
      ensures lo <= f(group[k]).value.detected.GetOr(0.0) <= hi
    {
      var m := group[k];
      assert m in group && !HoldsNothingAt(in_, m);
      ValueMeans(in_, m.pointId);
      var latest := LatestOf(PointGroup(in_, in_.measurements, m.pointId));
      assert Scored(in_, a, m.pointId, latest);
      assert !HoldsNothing(in_, m.pointId);
      assert CountBetween(latest, lo, hi);
    }
    FilterMapAll(group, f, (s: CameraScore) => lo <= s.detected.GetOr(0.0) <= hi);
  }

  lemma {:induction false} CameraBetween(in_: Inputs, p: Id, lo: real, hi: real)
    requires MeasuredInWindow(in_, p) && PointValueOf(in_, p).Some? && CountsPeople(in_, p)
    requires forall x :: InWindow(in_, p, x) ==> CountBetween(x, lo, hi)
    ensures PointValueOf(in_, p).value.score.detected.Some?
    ensures lo <= PointValueOf(in_, p).value.score.detected.value <= hi
  {
    DetectedMeans(in_, p);
    var group := PointGroup(in_, in_.measurements, p);
    var f := (m: Measurement) => DetectedIn(in_, m);
    FilterMembers(in_.measurements, (m: Measurement) => m.pointId == p && in_.Usable(m));
    FilterMapMembers(group, f);
    var detected := FilterMap(group, f);
    forall i | 0 <= i < |detected|
      ensures lo <= detected[i] <= hi
    {
      assert detected[i] in detected;
      var k :| 0 <= k < |group| && f(group[k]) == Some(detected[i]);
      assert group[k] in group;
      assert InWindow(in_, p, group[k]);
    }
    MeanBetween(detected, lo, hi);
  }
}
