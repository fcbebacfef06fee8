/** Composing a snapshot in one pass over the measurements, one over the mappings and one over
    the anchors. */
module SnapshotComposer {
  import opened Basics
  import opened Seqs
  import opened Sorting
  import opened Domain
  import opened SensorSets
  import opened OccupancyTrend
  import opened Snapshots

  method Mean(values: seq<real>) returns (mean: Option<real>)
    ensures mean == MeanOf(values)
  {
    var sum := 0.0;
    for i := 0 to |values|
      invariant sum == Sum(values[..i])
    {
      assert values[..i + 1][..i] == values[..i];
      sum := sum + values[i];
    }
    assert values[..|values|] == values;
    mean := if |values| == 0 then None else Some(sum / |values| as real);
  }

  method QrPoints(in_: Inputs) returns (qr: set<Id>)
    ensures forall p :: p in qr <==> in_.IsQr(p)
  {
    qr := {};
    for i := 0 to |in_.mappings|
      invariant forall p ::
                  p in qr <==> exists j :: 0 <= j < i && in_.mappings[j].kind.QR? && in_.mappings[j].pointId == p
    {
      if in_.mappings[i].kind.QR? {
        qr := qr + {in_.mappings[i].pointId};
      }
    }
  }

  ghost predicate ReadingIsRight(in_: Inputs, readings: map<Id, Reading>, p: Id, group: seq<Measurement>) {
    (p in readings <==> |group| > 0) && (p in readings ==> readings[p] == ReadingOf(in_, group))
  }

  ghost predicate ReadingsAreRight(in_: Inputs, measurements: seq<Measurement>, readings: map<Id, Reading>) {
    forall p :: ReadingIsRight(in_, readings, p, PointGroup(in_, measurements, p))
  }

  /** A reading takes in one more measurement. */
  function Observe(in_: Inputs, r: Reading, m: Measurement): Reading {
    Reading(
      if m.windowEnd > r.latest.windowEnd then m else r.latest,
      r.detected + (if DetectedIn(in_, m).Some? then [DetectedIn(in_, m).value] else []),
      r.trend + (if TrendSampleIn(in_, m).Some? then [TrendSampleIn(in_, m).value] else []),
      r.countIn + CountIn(in_, m).GetOr(0))
  }

  lemma {:induction false} ReadingAppend(in_: Inputs, group: seq<Measurement>, m: Measurement)
    requires |group| > 0
    ensures ReadingOf(in_, group + [m]) == Observe(in_, ReadingOf(in_, group), m)
  {
    var l := group + [m];
    assert l[..|group|] == group;
    FilterMapAppend(group, m, (x: Measurement) => DetectedIn(in_, x));
    FilterMapAppend(group, m, (x: Measurement) => TrendSampleIn(in_, x));
    FilterMapAppend(group, m, (x: Measurement) => CountIn(in_, x));
    SumIntConcat(FilterMap(group, (x: Measurement) => CountIn(in_, x)), PickedCount(in_, m));
  }

  function PickedCount(in_: Inputs, m: Measurement): (r: seq<int>)
    ensures SumInt(r) == CountIn(in_, m).GetOr(0)
  {
    assert [m.countIn][..0] == [];
    if CountIn(in_, m).Some? then [CountIn(in_, m).value] else []
  }

  lemma {:induction false} FirstReading(in_: Inputs, m: Measurement)
    ensures ReadingOf(in_, [m]) == Observe(in_, Reading(m, [], [], 0), m)
  {
    assert [m] == [] + [m];
    FilterMapAppend([], m, (x: Measurement) => DetectedIn(in_, x));
    FilterMapAppend([], m, (x: Measurement) => TrendSampleIn(in_, x));
    FilterMapAppend([], m, (x: Measurement) => CountIn(in_, x));
    assert FilterMap([m], (x: Measurement) => CountIn(in_, x)) == PickedCount(in_, m);
  }

  lemma {:induction false} GroupAppend(in_: Inputs, group: seq<Measurement>, m: Measurement)
    ensures ReadingOf(in_, group + [m])
         == Observe(in_, if |group| == 0 then Reading(m, [], [], 0) else ReadingOf(in_, group), m)
  {
    if |group| == 0 {
      assert group + [m] == [m];
      FirstReading(in_, m);
    } else {
      ReadingAppend(in_, group, m);
    }
  }

  method CollectReadings(in_: Inputs) returns (readings: map<Id, Reading>)
    ensures ReadingsAreRight(in_, in_.measurements, readings)
  {
    var qr := QrPoints(in_);
    readings := map[];
    for i := 0 to |in_.measurements|
      invariant ReadingsAreRight(in_, in_.measurements[..i], readings)
    {
      var m := in_.measurements[i];
      assert in_.measurements[..i + 1] == in_.measurements[..i] + [m];
      var usable := m.pointId in qr
        || (m.pointId in in_.states && !in_.states[m.pointId].Disabled? && m.meanDetectedPeople.Some?);
      ghost var before := readings;
      if usable && in_.windowEnd - m.windowEnd <= MAX_HOLD {
        var current := if m.pointId in readings then readings[m.pointId] else Reading(m, [], [], 0);
        ghost var observed := Observe(in_, current, m);
        if m.windowEnd > in_.windowStart {
          current := current.(countIn := current.countIn + m.countIn);
        }
        if m.windowEnd > current.latest.windowEnd {
          current := current.(latest := m);
        }
        if m.meanDetectedPeople.Some? && in_.windowEnd - m.windowEnd < OCCUPANCY_TREND_SPAN {
          current := current.(trend := current.trend + [PeopleSample(m.windowEnd, m.meanDetectedPeople.value)]);
        }
        if m.meanDetectedPeople.Some? && m.windowEnd > in_.windowStart {
          current := current.(detected := current.detected + [m.meanDetectedPeople.value]);
        }
        assert current == observed;
        readings := readings[m.pointId := current];
      }
      ReadingsAppend(in_, in_.measurements[..i], m, before, readings);
    }
    assert in_.measurements[..|in_.measurements|] == in_.measurements;
  }

  lemma {:induction false} ReadingsAppend(in_: Inputs, ms: seq<Measurement>, m: Measurement,
                                          before: map<Id, Reading>, after: map<Id, Reading>)
    requires ReadingsAreRight(in_, ms, before)
    requires var r := if m.pointId in before then before[m.pointId] else Reading(m, [], [], 0);
             after == if in_.Usable(m) then before[m.pointId := Observe(in_, r, m)] else before
    ensures ReadingsAreRight(in_, ms + [m], after)
  {
    forall p
      ensures ReadingIsRight(in_, after, p, PointGroup(in_, ms + [m], p))
    {
      var group := PointGroup(in_, ms, p);
      assert ReadingIsRight(in_, before, p, group);
      FilterAppend(ms, m, (x: Measurement) => x.pointId == p && in_.Usable(x));
      if m.pointId == p && in_.Usable(m) {
        GroupAppend(in_, group, m);
      }
    }
  }

  /** An anchor score takes in one more mapping. */
  function Include(in_: Inputs, s: AnchorScore, m: ObservationPointMapping): AnchorScore
    requires in_.windowStart < in_.windowEnd
  {
    AnchorScore(
      s.freshScores + (if FreshScoreOf(in_, m).Some? then [FreshScoreOf(in_, m).value] else []),
      s.heldScores + (if HeldScoreOf(in_, m).Some? then [HeldScoreOf(in_, m).value] else []),
      s.cameras + (if m.kind.Camera? then 1 else 0),
      s.qrRateIn + QrRateOf(in_, m).GetOr(0.0),
      s.sensors + [m.pointId],
      s.qr || m.kind.QR?,
      if ResolutionOf(in_, m).GetOr(0) > s.resolution then ResolutionOf(in_, m).GetOr(0) else s.resolution)
  }

  const NO_SCORE := AnchorScore([], [], 0, 0.0, [], false, 0)

  lemma {:induction false} ScoreAppend(in_: Inputs, group: seq<ObservationPointMapping>, m: ObservationPointMapping)
    requires in_.windowStart < in_.windowEnd
    ensures ScoreOf(in_, group + [m]) == Include(in_, ScoreOf(in_, group), m)
  {
    ScoreListsAppend(in_, group, m);
    ScoreRateAppend(in_, group, m);
    ScoreResolutionAppend(in_, group, m);
  }

  lemma {:induction false} ScoreRateAppend(in_: Inputs, group: seq<ObservationPointMapping>, m: ObservationPointMapping)
    requires in_.windowStart < in_.windowEnd
    ensures ScoreOf(in_, group + [m]).qrRateIn == Include(in_, ScoreOf(in_, group), m).qrRateIn
  {
    FilterMapAppend(group, m, (x: ObservationPointMapping) => QrRateOf(in_, x));
    SumOptional(FilterMap(group, (x: ObservationPointMapping) => QrRateOf(in_, x)), QrRateOf(in_, m));
  }

  lemma {:induction false} SumOptional(rates: seq<real>, rate: Option<real>)
    ensures Sum(rates + (if rate.Some? then [rate.value] else [])) == Sum(rates) + rate.GetOr(0.0)
  {
    if rate.Some? {
      assert (rates + [rate.value])[..|rates|] == rates;
    } else {
      assert rates + [] == rates;
    }
  }

  lemma {:induction false} ScoreResolutionAppend(in_: Inputs, group: seq<ObservationPointMapping>,
      m: ObservationPointMapping)
    requires in_.windowStart < in_.windowEnd
    ensures ScoreOf(in_, group + [m]).resolution == Include(in_, ScoreOf(in_, group), m).resolution
  {
    FilterMapAppend(group, m, (x: ObservationPointMapping) => ResolutionOf(in_, x));
    LongestOptional(FilterMap(group, (x: ObservationPointMapping) => ResolutionOf(in_, x)), ResolutionOf(in_, m));
  }

  lemma {:induction false} LongestOptional(durations: seq<Duration>, d: Option<Duration>)
    ensures Longest(durations + (if d.Some? then [d.value] else []))
         == if d.GetOr(0) > Longest(durations) then d.GetOr(0) else Longest(durations)
  {
    if d.Some? {
      assert (durations + [d.value])[..|durations|] == durations;
    } else {
      assert durations + [] == durations;
    }
  }

  lemma {:induction false} ScoreListsAppend(in_: Inputs, group: seq<ObservationPointMapping>,
      m: ObservationPointMapping)
    requires in_.windowStart < in_.windowEnd
    ensures var s, t := ScoreOf(in_, group + [m]), Include(in_, ScoreOf(in_, group), m);
            s.freshScores == t.freshScores && s.heldScores == t.heldScores && s.cameras == t.cameras
            && s.sensors == t.sensors && s.qr == t.qr
  {
    FilterMapAppend(group, m, (x: ObservationPointMapping) => FreshScoreOf(in_, x));
    FilterMapAppend(group, m, (x: ObservationPointMapping) => HeldScoreOf(in_, x));
    OthersAppend(group, m);
  }

  lemma {:induction false} OthersAppend(group: seq<ObservationPointMapping>, m: ObservationPointMapping)
    ensures |Filter(group + [m], (x: ObservationPointMapping) => x.kind.Camera?)|
         == |Filter(group, (x: ObservationPointMapping) => x.kind.Camera?)| + (if m.kind.Camera? then 1 else 0)
    ensures Map(group + [m], (x: ObservationPointMapping) => x.pointId)
         == Map(group, (x: ObservationPointMapping) => x.pointId) + [m.pointId]
    ensures (exists i :: 0 <= i < |group + [m]| && (group + [m])[i].kind.QR?)
       <==> (exists i :: 0 <= i < |group| && group[i].kind.QR?) || m.kind.QR?
  {
    FilterAppend(group, m, (x: ObservationPointMapping) => x.kind.Camera?);
    MapConcat(group, [m], (x: ObservationPointMapping) => x.pointId);
    var l := group + [m];
    assert l[|group|] == m;
    assert forall i :: 0 <= i < |group| ==> l[i] == group[i];
  }

  lemma {:induction false} EmptyScore(in_: Inputs)
    requires in_.windowStart < in_.windowEnd
    ensures ScoreOf(in_, []) == NO_SCORE
  {
  }

  ghost predicate AnchorIsRight(in_: Inputs, anchors: map<GraphAnchor, AnchorScore>, a: GraphAnchor,
                                group: seq<ObservationPointMapping>)
    requires in_.windowStart < in_.windowEnd
  {
    (a in anchors <==> |group| > 0) && (a in anchors ==> anchors[a] == ScoreOf(in_, group))
  }

  ghost predicate AnchorsAreRight(in_: Inputs, mappings: seq<ObservationPointMapping>,
      anchors: map<GraphAnchor, AnchorScore>)
    requires in_.windowStart < in_.windowEnd
  {
    forall a :: AnchorIsRight(in_, anchors, a, AnchorGroup(in_, mappings, a))
  }

  lemma {:induction false} AnchorsAppend(in_: Inputs, ms: seq<ObservationPointMapping>, m: ObservationPointMapping,
                                         before: map<GraphAnchor, AnchorScore>, after: map<GraphAnchor, AnchorScore>)
    requires in_.windowStart < in_.windowEnd && AnchorsAreRight(in_, ms, before)
    requires var s := if m.anchor in before then before[m.anchor] else NO_SCORE;
             after == if in_.Accepts(m) then before[m.anchor := Include(in_, s, m)] else before
    ensures AnchorsAreRight(in_, ms + [m], after)
  {
    forall a
      ensures AnchorIsRight(in_, after, a, AnchorGroup(in_, ms + [m], a))
    {
      var group := AnchorGroup(in_, ms, a);
      assert AnchorIsRight(in_, before, a, group);
      FilterAppend(ms, m, (x: ObservationPointMapping) => x.anchor == a && in_.Accepts(x));
      if m.anchor == a && in_.Accepts(m) {
        ScoreAppend(in_, group, m);
        EmptyScore(in_);
        assert |group| == 0 ==> group == [];
      }
    }
  }

  lemma {:induction false} ReadingGivesValue(in_: Inputs, readings: map<Id, Reading>, p: Id)
    requires ReadingsAreRight(in_, in_.measurements, readings)
    ensures PointValueOf(in_, p) == if p in readings then Some(ValueOf(in_, readings[p])) else None
  {
    assert ReadingIsRight(in_, readings, p, PointGroup(in_, in_.measurements, p));
  }

  /** One camera's score, or the dereference of an absent people count. */
  method ScoreCamera(in_: Inputs, current: Reading) returns (isFresh: bool, score: CameraScore)
    ensures isFresh == ValueOf(in_, current).isFresh && score == ValueOf(in_, current).score
  {
    isFresh := current.latest.windowEnd > in_.windowStart;
    var detected := current.latest.meanDetectedPeople;
    if isFresh {
      detected := Mean(current.detected);
    }
    var trend := PeopleTrend(current.trend);
    score := CameraScore(current.latest.RateIn(), current.latest.RateOut(), detected, trend);
  }

  ghost predicate PanicsAt(in_: Inputs, m: ObservationPointMapping) {
    in_.Accepts(m) && HeldWithoutPeople(in_, m)
  }

  lemma {:induction false} PanicsSomewhere(in_: Inputs)
    ensures Panics(in_) <==> exists i :: 0 <= i < |in_.mappings| && PanicsAt(in_, in_.mappings[i])
  {
    if i :| 0 <= i < |in_.mappings| && PanicsAt(in_, in_.mappings[i]) {
      assert in_.Accepts(in_.mappings[i]) && HeldWithoutPeople(in_, in_.mappings[i]);
    }
    if i :| 0 <= i < |in_.mappings| && in_.Accepts(in_.mappings[i]) && HeldWithoutPeople(in_, in_.mappings[i]) {
      assert PanicsAt(in_, in_.mappings[i]);
    }
  }

  lemma {:induction false} ScoreSoFar(in_: Inputs, ms: seq<ObservationPointMapping>,
      anchors: map<GraphAnchor, AnchorScore>, a: GraphAnchor)
    requires in_.windowStart < in_.windowEnd && AnchorsAreRight(in_, ms, anchors)
    ensures a in anchors ==> anchors[a].resolution >= 0
  {
    assert AnchorIsRight(in_, anchors, a, AnchorGroup(in_, ms, a));
  }

  method ScoreAnchors(in_: Inputs, readings: map<Id, Reading>)
    returns (panicked: bool, anchors: map<GraphAnchor, AnchorScore>)
    requires in_.windowStart < in_.windowEnd
    requires ReadingsAreRight(in_, in_.measurements, readings)
    ensures panicked == Panics(in_)
    ensures !panicked ==> AnchorsAreRight(in_, in_.mappings, anchors)
  {
    hide FreshScoreOf, HeldScoreOf, QrRateOf, ResolutionOf, PointValueOf, Include, HeldWithoutPeople;
    panicked, anchors := false, map[];
    PanicsSomewhere(in_);
    assert AnchorsAreRight(in_, in_.mappings[..0], anchors);
    hide AnchorsAreRight, ReadingsAreRight, Panics;
    for i := 0 to |in_.mappings|
      invariant !panicked
      invariant forall j :: 0 <= j < i ==> !PanicsAt(in_, in_.mappings[j])
      invariant AnchorsAreRight(in_, in_.mappings[..i], anchors)
    {
      var m := in_.mappings[i];
      assert in_.mappings[..i + 1] == in_.mappings[..i] + [m];
      ghost var before := anchors;
      if in_.Accepts(m) {
        ReadingGivesValue(in_, readings, m.pointId);
        ScoreSoFar(in_, in_.mappings[..i], anchors, m.anchor);
        var score := if m.anchor in anchors then anchors[m.anchor] else NO_SCORE;
        var ok;
        ok, score := IncludeMapping(in_, readings, m, score);
        if !ok {
          assert PanicsAt(in_, in_.mappings[i]);
          return true, anchors;
        }
        anchors := anchors[m.anchor := score];
      }
      AnchorsAppend(in_, in_.mappings[..i], m, before, anchors);
    }
    assert in_.mappings[..|in_.mappings|] == in_.mappings;
  }

  method IncludeMapping(in_: Inputs, readings: map<Id, Reading>, m: ObservationPointMapping, before: AnchorScore)
    returns (ok: bool, score: AnchorScore)
    requires in_.windowStart < in_.windowEnd && before.resolution >= 0
    requires PointValueOf(in_, m.pointId)
          == if m.pointId in readings then Some(ValueOf(in_, readings[m.pointId])) else None
    ensures ok == !HeldWithoutPeople(in_, m)
    ensures ok ==> score == Include(in_, before, m)
  {
    hide PointValueOf, MeanOf, Trend, HasTrend;
    ok := true;
    score := before.(sensors := before.sensors + [m.pointId]);
    var measured := m.pointId in readings;
    if measured {
      var latest := readings[m.pointId].latest;
      if latest.windowEnd - latest.windowStart > score.resolution {
        score := score.(resolution := latest.windowEnd - latest.windowStart);
      }
    }
    if m.kind.QR? {
      score := score.(qr := true);
      if measured {
        var rate := readings[m.pointId].countIn as real / Minutes(in_.windowEnd - in_.windowStart);
        score := score.(qrRateIn := score.qrRateIn + rate);
      }
      return;
    }
    score := score.(cameras := score.cameras + 1);
    if !measured {
      return;
    }
    var isFresh, camera := ScoreCamera(in_, readings[m.pointId]);
    if isFresh {
      score := score.(freshScores := score.freshScores + [camera]);
    } else if camera.detected == None {
      ok := false;
    } else {
      score := score.(heldScores := score.heldScores + [camera]);
    }
  }

  /** What some scores add up to. */
  ghost predicate AddUp(scores: seq<CameraScore>, rateIn: real, rateOut: real, detected: real, trends: seq<real>,
      undefined: bool)
  {
    && rateIn == Sum(Map(scores, (s: CameraScore) => s.rateIn))
    && rateOut == Sum(Map(scores, (s: CameraScore) => s.rateOut))
    && detected == Sum(Map(scores, (s: CameraScore) => s.detected.GetOr(0.0)))
    && trends == FilterMap(scores, (s: CameraScore) => s.trend)
    && (undefined <==> exists j :: 0 <= j < |scores| && scores[j].detected == None)
  }

  lemma {:induction false} NothingAddsUp()
    ensures AddUp([], 0.0, 0.0, 0.0, [], false)
  {
  }

  lemma {:induction false} AddUpOneMore(scores: seq<CameraScore>, s: CameraScore, rateIn: real, rateOut: real,
      detected: real, trends: seq<real>, undefined: bool)
    requires AddUp(scores, rateIn, rateOut, detected, trends, undefined)
    ensures AddUp(scores + [s], rateIn + s.rateIn, rateOut + s.rateOut, detected + s.detected.GetOr(0.0),
                  if s.trend.Some? then trends + [s.trend.value] else trends, undefined || s.detected == None)
  {
    SumMapAppend(scores, s, (x: CameraScore) => x.rateIn);
    SumMapAppend(scores, s, (x: CameraScore) => x.rateOut);
    SumMapAppend(scores, s, (x: CameraScore) => x.detected.GetOr(0.0));
    FilterMapAppend(scores, s, (x: CameraScore) => x.trend);
    assert (scores + [s])[|scores|] == s;
    hide Sum, Map, FilterMap;
  }

  method AverageCameraScores(level: Confidence, scores: seq<CameraScore>, qrRateIn: real) returns (c: ComposedScore)
    requires |scores| > 0
    ensures c == AverageOf(level, scores, qrRateIn)
  {
    hide Sum, Map, FilterMap, MeanOf;
    var rateIn, rateOut, detected := 0.0, 0.0, 0.0;
    var trends := [];
    var undefined := false;
    NothingAddsUp();
    for i := 0 to |scores|
      invariant AddUp(scores[..i], rateIn, rateOut, detected, trends, undefined)
    {
      var score := scores[i];
      assert scores[..i + 1] == scores[..i] + [score];
      AddUpOneMore(scores[..i], score, rateIn, rateOut, detected, trends, undefined);
      hide AddUp;
      rateIn := rateIn + score.rateIn;
      rateOut := rateOut + score.rateOut;
      detected := detected + score.detected.GetOr(0.0);
      undefined := undefined || score.detected == None;
      if score.trend.Some? {
        trends := trends + [score.trend.value];
      }
    }
    assert scores[..|scores|] == scores;
    var count := |scores| as real;
    var occupancyDelta := Mean(trends);
    c := ComposedScore(level, rateIn / count + qrRateIn, rateOut / count, Some(detected / count), occupancyDelta,
                       undefined);
  }

  method ComposeScore(s: AnchorScore) returns (c: ComposedScore)
    ensures c == Compose(s)
  {
    if |s.freshScores| > 0 {
      c := AverageCameraScores(OK, s.freshScores, s.qrRateIn);
    } else if |s.heldScores| > 0 {
      c := AverageCameraScores(Hold, s.heldScores, s.qrRateIn);
    } else if s.cameras > 0 {
      c := ComposedScore(Invalid, 0.0, 0.0, None, None, false);
    } else {
      c := ComposedScore(OK, s.qrRateIn, 0.0, None, Some(s.qrRateIn), false);
    }
  }

  lemma {:induction false} KeysAreAnchors(in_: Inputs, anchors: map<GraphAnchor, AnchorScore>, sorted: seq<GraphAnchor>)
    requires in_.windowStart < in_.windowEnd && AnchorsAreRight(in_, in_.mappings, anchors)
    requires StrictlySorted(sorted, AnchorBefore) && forall a :: a in sorted <==> a in anchors
    ensures sorted == Anchors(in_)
    ensures forall a :: a in anchors ==> OutcomeOf(in_, a) == OutcomeOfScore(anchors[a])
  {
    var f := (m: ObservationPointMapping) => if in_.Accepts(m) then Some(m.anchor) else None;
    AnchorOrder();
    SortedDistinctIsSorted(AcceptedAnchors(in_, in_.mappings), AnchorBefore);
    FilterMapMembers(in_.mappings, f);
    forall a
      ensures a in sorted <==> a in Anchors(in_)
    {
      assert AnchorIsRight(in_, anchors, a, AnchorGroup(in_, in_.mappings, a));
      var group := AnchorGroup(in_, in_.mappings, a);
      FilterMembers(in_.mappings, (m: ObservationPointMapping) => m.anchor == a && in_.Accepts(m));
      if a in sorted {
        assert group[0] in group;
        var j :| 0 <= j < |in_.mappings| && in_.mappings[j] == group[0];
        assert f(in_.mappings[j]).Some?;
      }
      if a in Anchors(in_) {
        var j :| 0 <= j < |in_.mappings| && f(in_.mappings[j]) == Some(a);
        assert in_.mappings[j] in group;
      }
    }
    SortedUnique(sorted, Anchors(in_), AnchorBefore);
    forall a | a in anchors
      ensures OutcomeOf(in_, a) == OutcomeOfScore(anchors[a])
    {
      assert AnchorIsRight(in_, anchors, a, AnchorGroup(in_, in_.mappings, a));
    }
  }

  /** The snapshot of one window. The public ID is drawn by the caller. */
  method NewSnapshot(id: Id, windowStart: Time, windowEnd: Time, measurements: seq<Measurement>,
                     mappings: seq<ObservationPointMapping>, states: map<Id, ObservationPointState>)
    returns (result: NewSnapshotResult)
    requires windowStart < windowEnd
    ensures result == SnapshotOf(id, Inputs(windowStart, windowEnd, measurements, mappings, states))
  {
    var in_ := Inputs(windowStart, windowEnd, measurements, mappings, states);
    var readings := CollectReadings(in_);
    var panicked, scores := ScoreAnchors(in_, readings);
    if panicked {
      return NilDereference;
    }
    AnchorOrder();
    var anchors := Sorted(scores.Keys, AnchorBefore);
    KeysAreAnchors(in_, scores, anchors);
    result := Classify(id, windowStart, windowEnd, anchors, scores, OutcomesOf(in_));
  }

  method OutcomeOfAnchor(score: AnchorScore) returns (outcome: AnchorOutcome)
    ensures outcome == OutcomeOfScore(score)
  {
    var composed := ComposeScore(score);
    outcome := AnchorOutcome(composed, DistinctSensors(score), score.qr, score.resolution);
  }

  /** Sorting each anchor into exactly one of the lists of the snapshot and its gaps. */
  method Classify(id: Id, windowStart: Time, windowEnd: Time, anchors: seq<GraphAnchor>,
                  scores: map<GraphAnchor, AnchorScore>, ghost outcomes: map<GraphAnchor, AnchorOutcome>)
    returns (result: NewSnapshotResult)
    requires forall a :: a in anchors ==> a in scores && a in outcomes && outcomes[a] == OutcomeOfScore(scores[a])
    ensures result == Assemble(id, windowStart, windowEnd, anchors, outcomes)
  {
    var lists := EMPTY_LISTS;
    var undefined := false;
    for i := 0 to |anchors|
      invariant lists == ListsOf(anchors[..i], outcomes)
      invariant undefined == HasUndefined(anchors[..i], outcomes)
    {
      hide OutcomeOfScore, ListsOf, AddOutcome, Assemble;
      var anchor := anchors[i];
      assert anchor in anchors;
      assert anchors[..i + 1] == anchors[..i] + [anchor];
      var outcome := OutcomeOfAnchor(scores[anchor]);
      assert UndefinedAt(anchor, outcomes) <==> Named(anchor) && outcome.Is(OK) && outcome.composed.undefined;
      undefined := undefined || (Named(anchor) && outcome.Is(OK) && outcome.composed.undefined);
      UndefinedAppend(anchors[..i], anchor, outcomes);
      ListsAppend(anchors[..i], anchor, outcomes);
      lists := AddOutcome(lists, anchor, outcome);
    }
    assert anchors[..|anchors|] == anchors;
    if undefined {
      return NotANumber(lists.sets);
    }
    result := Composed(
      Snapshot(id, windowStart, windowEnd, lists.points, lists.routes,
               MissingAnchors(lists.missingPoints, lists.missingRoutes), lists.resolutions),
      Gaps(lists.heldPoints, lists.heldRoutes, lists.invalidPoints, lists.invalidRoutes),
      lists.sets);
  }

  /** The lists that classification fills. */
  datatype SnapshotLists = SnapshotLists(
    points: seq<PointScore>,
    routes: seq<RouteScore>,
    heldPoints: seq<PointScore>,
    heldRoutes: seq<RouteScore>,
    invalidPoints: seq<Id>,
    invalidRoutes: seq<Id>,
    missingPoints: seq<Id>,
    missingRoutes: seq<Id>,
    sets: seq<SensorSet>,
    resolutions: map<GraphAnchor, Duration>)

  const EMPTY_LISTS := SnapshotLists([], [], [], [], [], [], [], [], [], map[])

  function AddOutcome(l: SnapshotLists, anchor: GraphAnchor, outcome: AnchorOutcome): SnapshotLists {
    var r := if outcome.resolution > 0 then l.(resolutions := l.resolutions[anchor := outcome.resolution]) else l;
    if anchor.routeId != "" then
      match outcome.composed.confidence
      case Invalid =>
        r.(invalidRoutes := r.invalidRoutes + [anchor.routeId], missingRoutes := r.missingRoutes + [anchor.routeId])
      case Hold => r.(heldRoutes := r.heldRoutes + [outcome.Route(anchor.routeId)],
                      missingRoutes := r.missingRoutes + [anchor.routeId])
      case OK => r.(routes := r.routes + [outcome.Route(anchor.routeId)],
                    sets := r.sets + [SensorSet(anchor, outcome.sensors, ZERO_TIME)])
    else if anchor.pointId != "" then
      match outcome.composed.confidence
      case Invalid =>
        r.(invalidPoints := r.invalidPoints + [anchor.pointId], missingPoints := r.missingPoints + [anchor.pointId])
      case Hold => r.(heldPoints := r.heldPoints + [outcome.Point(anchor.pointId)],
                      missingPoints := r.missingPoints + [anchor.pointId])
      case OK => r.(points := r.points + [outcome.Point(anchor.pointId)],
                    sets := r.sets + [SensorSet(anchor, outcome.sensors, ZERO_TIME)])
    else r
  }

  function ListsOf(anchors: seq<GraphAnchor>, outcomes: map<GraphAnchor, AnchorOutcome>): SnapshotLists {
    SnapshotLists(PointsAt(anchors, outcomes, OK), RoutesAt(anchors, outcomes, OK),
          PointsAt(anchors, outcomes, Hold), RoutesAt(anchors, outcomes, Hold),
          InvalidPoints(anchors, outcomes), InvalidRoutes(anchors, outcomes),
          MissingPoints(anchors, outcomes), MissingRoutes(anchors, outcomes),
          ComposedSets(anchors, outcomes), Resolutions(anchors, outcomes))
  }

  lemma {:induction false} UndefinedAppend(anchors: seq<GraphAnchor>, a: GraphAnchor,
      outcomes: map<GraphAnchor, AnchorOutcome>)
    ensures HasUndefined(anchors + [a], outcomes) <==> HasUndefined(anchors, outcomes) || UndefinedAt(a, outcomes)
  {
    var l := anchors + [a];
    if i :| 0 <= i < |anchors| && UndefinedAt(anchors[i], outcomes) {
      assert l[i] == anchors[i];
    }
    assert l[|anchors|] == a;
  }

  lemma {:induction false} ResolutionsGrow(anchors: seq<GraphAnchor>, a: GraphAnchor,
      outcomes: map<GraphAnchor, AnchorOutcome>)
    requires a in outcomes
    ensures Resolutions(anchors + [a], outcomes) == AddOutcome(ListsOf(anchors, outcomes), a, outcomes[a]).resolutions
  {
    hide PointsAt, RoutesAt, InvalidPoints, InvalidRoutes, MissingPoints, MissingRoutes, ComposedSets;
  }

  lemma {:induction false} ListsAppend(anchors: seq<GraphAnchor>, a: GraphAnchor,
      outcomes: map<GraphAnchor, AnchorOutcome>)
    requires a in outcomes
    ensures ListsOf(anchors + [a], outcomes) == AddOutcome(ListsOf(anchors, outcomes), a, outcomes[a])
  {
    ScoreListsGrow(anchors, a, outcomes);
    IdListsGrow(anchors, a, outcomes);
    ResolutionsGrow(anchors, a, outcomes);
    hide PointsAt, RoutesAt, InvalidPoints, InvalidRoutes, MissingPoints, MissingRoutes, ComposedSets, Resolutions,
      AddOutcome;
  }

  lemma {:induction false} ScoreListsGrow(anchors: seq<GraphAnchor>, a: GraphAnchor,
      outcomes: map<GraphAnchor, AnchorOutcome>)
    requires a in outcomes
    ensures var l, r := ListsOf(anchors + [a], outcomes), AddOutcome(ListsOf(anchors, outcomes), a, outcomes[a]);
            l.points == r.points && l.routes == r.routes && l.heldPoints == r.heldPoints && l.heldRoutes == r.heldRoutes
  {
    ScoresGrow(anchors, a, outcomes, OK);
    ScoresGrow(anchors, a, outcomes, Hold);
    hide PointsAt, RoutesAt, InvalidPoints, InvalidRoutes, MissingPoints, MissingRoutes, ComposedSets, Resolutions;
  }

  lemma {:induction false} ScoresGrow(anchors: seq<GraphAnchor>, a: GraphAnchor,
      outcomes: map<GraphAnchor, AnchorOutcome>, level: Confidence)
    requires a in outcomes
    ensures RoutesAt(anchors + [a], outcomes, level)
         == RoutesAt(anchors, outcomes, level)
            + (if a.routeId != "" && outcomes[a].Is(level) then [outcomes[a].Route(a.routeId)] else [])
    ensures PointsAt(anchors + [a], outcomes, level)
         == PointsAt(anchors, outcomes, level)
            + (if a.routeId == "" && a.pointId != "" && outcomes[a].Is(level)
               then [outcomes[a].Point(a.pointId)] else [])
  {
    FilterMapAppend(anchors, a, (x: GraphAnchor) =>
      if x in outcomes && x.routeId != "" && outcomes[x].Is(level) then Some(outcomes[x].Route(x.routeId)) else None);
    FilterMapAppend(anchors, a, (x: GraphAnchor) =>
      if x in outcomes && x.routeId == "" && x.pointId != "" && outcomes[x].Is(level)
      then Some(outcomes[x].Point(x.pointId)) else None);
  }

  lemma {:induction false} IdListsGrow(anchors: seq<GraphAnchor>, a: GraphAnchor,
      outcomes: map<GraphAnchor, AnchorOutcome>)
    requires a in outcomes
    ensures var l, r := ListsOf(anchors + [a], outcomes), AddOutcome(ListsOf(anchors, outcomes), a, outcomes[a]);
            l.invalidPoints == r.invalidPoints && l.invalidRoutes == r.invalidRoutes
            && l.missingPoints == r.missingPoints && l.missingRoutes == r.missingRoutes && l.sets == r.sets
  {
    InvalidListsGrow(anchors, a, outcomes);
    MissingListsGrow(anchors, a, outcomes);
    FilterMapAppend(anchors, a, (x: GraphAnchor) =>
      if x in outcomes && Named(x) && outcomes[x].Is(OK)
      then Some(SensorSet(x, outcomes[x].sensors, ZERO_TIME)) else None);
    hide PointsAt, RoutesAt, InvalidPoints, InvalidRoutes, MissingPoints, MissingRoutes, Resolutions;
  }

  lemma {:induction false} InvalidListsGrow(anchors: seq<GraphAnchor>, a: GraphAnchor,
      outcomes: map<GraphAnchor, AnchorOutcome>)
    requires a in outcomes
    ensures InvalidRoutes(anchors + [a], outcomes)
         == InvalidRoutes(anchors, outcomes) + (if a.routeId != "" && outcomes[a].Is(Invalid) then [a.routeId] else [])
    ensures InvalidPoints(anchors + [a], outcomes)
         == InvalidPoints(anchors, outcomes)
            + (if a.routeId == "" && a.pointId != "" && outcomes[a].Is(Invalid) then [a.pointId] else [])
  {
    FilterMapAppend(anchors, a, (x: GraphAnchor) =>
      if x in outcomes && x.routeId != "" && outcomes[x].Is(Invalid) then Some(x.routeId) else None);
    FilterMapAppend(anchors, a, (x: GraphAnchor) =>
      if x in outcomes && x.routeId == "" && x.pointId != "" && outcomes[x].Is(Invalid) then Some(x.pointId) else None);
  }

  lemma {:induction false} MissingListsGrow(anchors: seq<GraphAnchor>, a: GraphAnchor,
      outcomes: map<GraphAnchor, AnchorOutcome>)
    requires a in outcomes
    ensures MissingRoutes(anchors + [a], outcomes)
         == MissingRoutes(anchors, outcomes) + (if a.routeId != "" && !outcomes[a].Is(OK) then [a.routeId] else [])
    ensures MissingPoints(anchors + [a], outcomes)
         == MissingPoints(anchors, outcomes)
            + (if a.routeId == "" && a.pointId != "" && !outcomes[a].Is(OK) then [a.pointId] else [])
  {
    FilterMapAppend(anchors, a, (x: GraphAnchor) =>
      if x in outcomes && x.routeId != "" && !outcomes[x].Is(OK) then Some(x.routeId) else None);
    FilterMapAppend(anchors, a, (x: GraphAnchor) =>
      if x in outcomes && x.routeId == "" && x.pointId != "" && !outcomes[x].Is(OK) then Some(x.pointId) else None);
  }
}
