/** A snapshot does not depend on the order of its inputs, nor on measurements too old to hold. */
module SnapshotOrder {
  import opened Basics
  import opened Seqs
  import opened Sorting
  import opened Domain
  import opened SensorSets
  import opened StableSort
  import opened OccupancyTrend
  import opened Snapshots

  /** The same cycle, with its mappings in any order and its measurements listed in any way. */
  ghost predicate SameCycle(p: Inputs, q: Inputs) {
    && p.windowStart == q.windowStart < p.windowEnd == q.windowEnd
    && p.states == q.states
    && multiset(p.mappings) == multiset(q.mappings)
  }

  ghost predicate SameValues(p: Inputs, q: Inputs) {
    forall id :: PointValueOf(p, id) == PointValueOf(q, id)
  }

  lemma {:induction false} SameMembers<T>(a: seq<T>, b: seq<T>)
    requires multiset(a) == multiset(b)
    ensures forall x :: x in a <==> x in b
  {
    forall x
      ensures x in a <==> x in b
    {
      assert x in a <==> x in multiset(a);
      assert x in b <==> x in multiset(b);
    }
  }

  lemma {:induction false} SameUsable(p: Inputs, q: Inputs, m: Measurement)
    requires SameCycle(p, q)
    ensures p.Usable(m) <==> q.Usable(m)
  {
    SameMembers(p.mappings, q.mappings);
    SameQr(p, q, m.pointId);
    SameQr(q, p, m.pointId);
  }

  lemma {:induction false} SameQr(p: Inputs, q: Inputs, id: Id)
    requires forall m :: m in p.mappings ==> m in q.mappings
    ensures p.IsQr(id) ==> q.IsQr(id)
  {
    if p.IsQr(id) {
      var i :| 0 <= i < |p.mappings| && p.mappings[i].kind.QR? && p.mappings[i].pointId == id;
      assert p.mappings[i] in q.mappings;
      var j :| 0 <= j < |q.mappings| && q.mappings[j] == p.mappings[i];
      assert q.mappings[j].kind.QR?;
    }
  }

  /** Equal point values give equal snapshots, whatever the order of the mappings. */
  lemma {:induction false} SameValuesSameSnapshot(id: Id, p: Inputs, q: Inputs)
    requires SameCycle(p, q) && SameValues(p, q)
    ensures SnapshotOf(id, p) == SnapshotOf(id, q)
  {
    SameMembers(p.mappings, q.mappings);
    SameAnchors(p, q);
    SamePanics(p, q);
    SamePanics(q, p);
    SameOutcomes(p, q);
    hide OutcomesOf, Anchors, Panics, Assemble, SameValues;
  }

  lemma {:induction false} SameOutcomes(p: Inputs, q: Inputs)
    requires SameCycle(p, q) && SameValues(p, q)
    ensures OutcomesOf(p) == OutcomesOf(q)
  {
    SameAnchors(p, q);
    assert p.windowStart < p.windowEnd && q.windowStart < q.windowEnd;
    hide OutcomeOf, OutcomesOf, Anchors, SameValues, SameCycle;
    forall a
      ensures a in OutcomesOf(p) <==> a in OutcomesOf(q)
      ensures a in OutcomesOf(p) ==> OutcomesOf(p)[a] == OutcomesOf(q)[a]
    {
      SameOutcome(p, q, a);
      OutcomeAt(p, a);
      OutcomeAt(q, a);
    }
    MapsAgree(OutcomesOf(p), OutcomesOf(q));
  }

  lemma {:induction false} MapsAgree<K, V>(m: map<K, V>, n: map<K, V>)
    requires forall k :: (k in m <==> k in n) && (k in m ==> m[k] == n[k])
    ensures m == n
  {
  }

  lemma {:induction false} OutcomeAt(in_: Inputs, a: GraphAnchor)
    requires in_.windowStart < in_.windowEnd
    ensures a in OutcomesOf(in_) <==> a in Anchors(in_)
    ensures a in OutcomesOf(in_) ==> OutcomesOf(in_)[a] == OutcomeOf(in_, a)
  {
    hide OutcomeOf, Anchors;
  }

  lemma {:induction false} SameAnchors(p: Inputs, q: Inputs)
    requires SameCycle(p, q)
    ensures Anchors(p) == Anchors(q)
  {
    var f := (m: ObservationPointMapping) => if p.Accepts(m) then Some(m.anchor) else None;
    FilterMapAgrees(q.mappings, f, (m: ObservationPointMapping) => if q.Accepts(m) then Some(m.anchor) else None);
    FilterMapPermuted(p.mappings, q.mappings, f);
    AnchorOrder();
    SameDistinct(AcceptedAnchors(p, p.mappings), AcceptedAnchors(q, q.mappings), AnchorBefore);
  }

  lemma {:induction false} SameDistinct<T(!new)>(a: seq<T>, b: seq<T>, less: (T, T) -> bool)
    requires StrictTotalOrder(less) && multiset(a) == multiset(b)
    ensures SortedDistinct(a, less) == SortedDistinct(b, less)
  {
    SameMembers(a, b);
    SortedDistinctIsSorted(a, less);
    SortedDistinctIsSorted(b, less);
    SortedUnique(SortedDistinct(a, less), SortedDistinct(b, less), less);
  }

  lemma {:induction false} SamePanics(p: Inputs, q: Inputs)
    requires SameCycle(p, q) && SameValues(p, q)
    requires forall m :: m in p.mappings ==> m in q.mappings
    ensures Panics(p) ==> Panics(q)
  {
    if Panics(p) {
      var i :| 0 <= i < |p.mappings| && p.Accepts(p.mappings[i]) && HeldWithoutPeople(p, p.mappings[i]);
      assert p.mappings[i] in q.mappings;
      var j :| 0 <= j < |q.mappings| && q.mappings[j] == p.mappings[i];
      assert PointValueOf(p, q.mappings[j].pointId) == PointValueOf(q, q.mappings[j].pointId);
      assert HeldWithoutPeople(q, q.mappings[j]);
    }
  }

  lemma {:induction false} SameOutcome(p: Inputs, q: Inputs, a: GraphAnchor)
    requires SameCycle(p, q) && SameValues(p, q)
    ensures OutcomeOf(p, a) == OutcomeOf(q, a)
  {
    var g, h := AnchorGroup(p, p.mappings, a), AnchorGroup(q, q.mappings, a);
    var accepted := (m: ObservationPointMapping) => m.anchor == a && p.Accepts(m);
    FilterAgrees(q.mappings, accepted, (m: ObservationPointMapping) => m.anchor == a && q.Accepts(m));
    FilterPermuted(p.mappings, q.mappings, accepted);
    SameScore(p, q, g, h);
    SameCompose(ScoreOf(p, g), ScoreOf(q, h));
  }

  /** Scores whose lists are permutations of each other. */
  ghost predicate Reordered(s: AnchorScore, t: AnchorScore) {
    && multiset(s.freshScores) == multiset(t.freshScores)
    && multiset(s.heldScores) == multiset(t.heldScores)
    && multiset(s.sensors) == multiset(t.sensors)
    && s.cameras == t.cameras && s.qrRateIn == t.qrRateIn && s.qr == t.qr && s.resolution == t.resolution
  }

  lemma {:induction false} SameScore(p: Inputs, q: Inputs, g: seq<ObservationPointMapping>,
      h: seq<ObservationPointMapping>)
    requires SameCycle(p, q) && SameValues(p, q) && multiset(g) == multiset(h)
    ensures Reordered(ScoreOf(p, g), ScoreOf(q, h))
  {
    SameCameraLists(p, q, g, h);
    SameCounts(p, q, g, h);
    SameMembers(g, h);
    SameKinds(g, h);
    SameKinds(h, g);
    MapPermuted(g, h, (m: ObservationPointMapping) => m.pointId);
  }

  lemma {:induction false} SameKinds(g: seq<ObservationPointMapping>, h: seq<ObservationPointMapping>)
    requires forall m :: m in g ==> m in h
    ensures (exists i :: 0 <= i < |g| && g[i].kind.QR?) ==> exists i :: 0 <= i < |h| && h[i].kind.QR?
  {
    if i :| 0 <= i < |g| && g[i].kind.QR? {
      assert g[i] in h;
    }
  }

  lemma {:induction false} SameCameraLists(p: Inputs, q: Inputs, g: seq<ObservationPointMapping>,
      h: seq<ObservationPointMapping>)
    requires SameCycle(p, q) && SameValues(p, q) && multiset(g) == multiset(h)
    ensures multiset(ScoreOf(p, g).freshScores) == multiset(ScoreOf(q, h).freshScores)
    ensures multiset(ScoreOf(p, g).heldScores) == multiset(ScoreOf(q, h).heldScores)
  {
    forall m
      ensures FreshScoreOf(p, m) == FreshScoreOf(q, m) && HeldScoreOf(p, m) == HeldScoreOf(q, m)
    {
      assert PointValueOf(p, m.pointId) == PointValueOf(q, m.pointId);
    }
    var f := (m: ObservationPointMapping) => FreshScoreOf(p, m);
    FilterMapPermuted(g, h, f);
    FilterMapAgrees(h, f, (m: ObservationPointMapping) => FreshScoreOf(q, m));
    var e := (m: ObservationPointMapping) => HeldScoreOf(p, m);
    FilterMapPermuted(g, h, e);
    FilterMapAgrees(h, e, (m: ObservationPointMapping) => HeldScoreOf(q, m));
  }

  lemma {:induction false} SameCounts(p: Inputs, q: Inputs, g: seq<ObservationPointMapping>,
      h: seq<ObservationPointMapping>)
    requires SameCycle(p, q) && SameValues(p, q) && multiset(g) == multiset(h)
    ensures ScoreOf(p, g).cameras == ScoreOf(q, h).cameras
    ensures ScoreOf(p, g).qrRateIn == ScoreOf(q, h).qrRateIn
    ensures ScoreOf(p, g).resolution == ScoreOf(q, h).resolution
  {
    var camera := (m: ObservationPointMapping) => m.kind.Camera?;
    FilterPermuted(g, h, camera);
    assert |multiset(Filter(g, camera))| == |multiset(Filter(h, camera))|;
    SameQrRate(p, q, g, h);
    SameResolution(p, q, g, h);
  }

  lemma {:induction false} SameQrRate(p: Inputs, q: Inputs, g: seq<ObservationPointMapping>,
      h: seq<ObservationPointMapping>)
    requires SameCycle(p, q) && SameValues(p, q) && multiset(g) == multiset(h)
    ensures ScoreOf(p, g).qrRateIn == ScoreOf(q, h).qrRateIn
  {
    forall m
      ensures QrRateOf(p, m) == QrRateOf(q, m)
    {
      assert PointValueOf(p, m.pointId) == PointValueOf(q, m.pointId);
    }
    var f := (m: ObservationPointMapping) => QrRateOf(p, m);
    FilterMapPermuted(g, h, f);
    FilterMapAgrees(h, f, (m: ObservationPointMapping) => QrRateOf(q, m));
    SumPermuted(FilterMap(g, f), FilterMap(h, f));
  }

  lemma {:induction false} SameResolution(p: Inputs, q: Inputs, g: seq<ObservationPointMapping>,
      h: seq<ObservationPointMapping>)
    requires SameCycle(p, q) && SameValues(p, q) && multiset(g) == multiset(h)
    ensures ScoreOf(p, g).resolution == ScoreOf(q, h).resolution
  {
    forall m
      ensures ResolutionOf(p, m) == ResolutionOf(q, m)
    {
      assert PointValueOf(p, m.pointId) == PointValueOf(q, m.pointId);
    }
    var e := (m: ObservationPointMapping) => ResolutionOf(p, m);
    FilterMapPermuted(g, h, e);
    FilterMapAgrees(h, e, (m: ObservationPointMapping) => ResolutionOf(q, m));
    SameLongest(FilterMap(g, e), FilterMap(h, e));
  }

  lemma {:induction false} SameLongest(a: seq<Duration>, b: seq<Duration>)
    requires multiset(a) == multiset(b)
    ensures Longest(a) == Longest(b)
  {
    SameMembers(a, b);
  }

  lemma {:induction false} SameCompose(s: AnchorScore, t: AnchorScore)
    requires Reordered(s, t)
    ensures OutcomeOfScore(s) == OutcomeOfScore(t)
  {
    IdOrder();
    SameDistinct(s.sensors, t.sensors, Before);
    assert |s.freshScores| == |multiset(s.freshScores)| == |multiset(t.freshScores)| == |t.freshScores|;
    assert |s.heldScores| == |multiset(s.heldScores)| == |multiset(t.heldScores)| == |t.heldScores|;
    if |s.freshScores| > 0 {
      SameAverage(OK, s.freshScores, t.freshScores, s.qrRateIn);
    } else if |s.heldScores| > 0 {
      SameAverage(Hold, s.heldScores, t.heldScores, s.qrRateIn);
    }
  }

  lemma {:induction false} SameAverage(level: Confidence, s: seq<CameraScore>, t: seq<CameraScore>, qrRateIn: real)
    requires |s| > 0 && |t| > 0 && multiset(s) == multiset(t)
    ensures AverageOf(level, s, qrRateIn) == AverageOf(level, t, qrRateIn)
  {
    SameSum(s, t, (x: CameraScore) => x.rateIn);
    SameSum(s, t, (x: CameraScore) => x.rateOut);
    SameSum(s, t, (x: CameraScore) => x.detected.GetOr(0.0));
    SameTrends(s, t);
    SameMembers(s, t);
    SameUndefined(s, t);
    SameUndefined(t, s);
    hide Sum, Map, FilterMap, MeanOf;
  }

  lemma {:induction false} SameTrends(s: seq<CameraScore>, t: seq<CameraScore>)
    requires multiset(s) == multiset(t)
    ensures MeanOf(FilterMap(s, (x: CameraScore) => x.trend)) == MeanOf(FilterMap(t, (x: CameraScore) => x.trend))
  {
    var f := (x: CameraScore) => x.trend;
    FilterMapPermuted(s, t, f);
    SumPermuted(FilterMap(s, f), FilterMap(t, f));
    hide Sum, FilterMap;
  }

  lemma {:induction false} SameSum(s: seq<CameraScore>, t: seq<CameraScore>, f: CameraScore -> real)
    requires multiset(s) == multiset(t)
    ensures Sum(Map(s, f)) == Sum(Map(t, f)) && |s| == |t|
  {
    MapPermuted(s, t, f);
    SumPermuted(Map(s, f), Map(t, f));
  }

  lemma {:induction false} SameUndefined(s: seq<CameraScore>, t: seq<CameraScore>)
    requires forall x :: x in s ==> x in t
    ensures (exists i :: 0 <= i < |s| && s[i].detected == None) ==> exists i :: 0 <= i < |t| && t[i].detected == None
  {
    if i :| 0 <= i < |s| && s[i].detected == None {
      assert s[i] in t;
    }
  }

  /** Measurements that end at `since` or later. */
  function Recent(measurements: seq<Measurement>, since: Time): seq<Measurement> {
    Filter(measurements, (m: Measurement) => m.windowEnd >= since)
  }

  function EndOf(m: Measurement): Time {
    m.windowEnd
  }

  method ListWindowEndingSince(measurements: seq<Measurement>, since: Time) returns (listed: seq<Measurement>)
    ensures forall m :: m in listed <==> m in measurements && m.windowEnd >= since
    ensures forall i, j :: 0 <= i < j < |listed| ==> listed[i].windowEnd <= listed[j].windowEnd
    ensures IsStableSortOf(listed, Recent(measurements, since), EndOf)
  {
    listed := OrderedByTime(measurements, (m: Measurement) => m.windowEnd >= since, EndOf);
    FilterMembers(measurements, (m: Measurement) => m.windowEnd >= since);
    forall m
      ensures m in listed <==> m in Recent(measurements, since)
    {
      assert m in multiset(listed) <==> m in multiset(Recent(measurements, since));
    }
    assert forall i :: 0 <= i < |listed| ==> EndOf(listed[i]) == listed[i].windowEnd;
  }

  /** Listing only the measurements that end within the hold period loses nothing: the
      composition from the prefiltered list is the composition from all measurements. */
  lemma {:induction false} PrefilterLosesNothing(id: Id, in_: Inputs)
    requires in_.windowStart < in_.windowEnd
    ensures SnapshotOf(id, in_.(measurements := Recent(in_.measurements, in_.windowEnd - MAX_HOLD)))
         == SnapshotOf(id, in_)
  {
    var q := in_.(measurements := Recent(in_.measurements, in_.windowEnd - MAX_HOLD));
    forall p
      ensures PointValueOf(q, p) == PointValueOf(in_, p)
    {
      forall m
        ensures q.Usable(m) <==> in_.Usable(m)
      {
        SameUsable(q, in_, m);
      }
      FilterFilter(in_.measurements, (m: Measurement) => m.windowEnd >= in_.windowEnd - MAX_HOLD,
                   (m: Measurement) => m.pointId == p && q.Usable(m),
                   (m: Measurement) => m.pointId == p && in_.Usable(m));
      var group := PointGroup(in_, in_.measurements, p);
      SameGroupSameValue(q, in_, group);
    }
    SameValuesSameSnapshot(id, q, in_);
  }

  /** Listing the recent measurements by their ends, and those of one end in their stored order,
      composes the same snapshot as all measurements in their stored order. */
  lemma {:induction false} ListingOrderLosesNothing(id: Id, in_: Inputs, r: Inputs)
    requires in_.windowStart < in_.windowEnd && r == in_.(measurements := r.measurements)
    requires IsStableSortOf(r.measurements, Recent(in_.measurements, in_.windowEnd - MAX_HOLD), EndOf)
    ensures SnapshotOf(id, r) == SnapshotOf(id, in_)
  {
    var q := in_.(measurements := Recent(in_.measurements, in_.windowEnd - MAX_HOLD));
    PrefilterLosesNothing(id, in_);
    forall p
      ensures PointValueOf(r, p) == PointValueOf(q, p)
    {
      StablePointValue(r, q, p);
    }
    SameValuesSameSnapshot(id, r, q);
  }

  lemma {:induction false} StablePointValue(r: Inputs, q: Inputs, id: Id)
    requires SameCycle(r, q) && IsStableSortOf(r.measurements, q.measurements, EndOf)
    ensures PointValueOf(r, id) == PointValueOf(q, id)
  {
    var of := (m: Measurement) => m.pointId == id && r.Usable(m);
    forall m
      ensures r.Usable(m) <==> q.Usable(m)
    {
      SameUsable(r, q, m);
    }
    FilterAgrees(q.measurements, of, (m: Measurement) => m.pointId == id && q.Usable(m));
    FilterPermuted(r.measurements, q.measurements, of);
    var g, h := PointGroup(r, r.measurements, id), PointGroup(q, q.measurements, id);
    assert |g| == |multiset(g)| == |multiset(h)| == |h|;
    if |g| > 0 {
      forall t: Time
        ensures AtTime(g, EndOf, t) == AtTime(h, EndOf, t)
      {
        AtTimeFilter(r.measurements, of, EndOf, t);
        AtTimeFilter(q.measurements, of, EndOf, t);
      }
      StableLatest(g, h);
      SameGroupSameValue(r, q, h);
      ReorderedLists(r, g, h);
      ReorderedValue(r, ReadingOf(r, g), ReadingOf(r, h));
    }
  }

  /** The latest measurement is the first of those that end last. */
  lemma {:induction false} LatestIsFirst(g: seq<Measurement>)
    requires |g| > 0
    ensures var l := AtTime(g, EndOf, LatestOf(g).windowEnd); |l| > 0 && l[0] == LatestOf(g)
  {
    var rest, x := g[..|g| - 1], g[|g| - 1];
    assert g == rest + [x];
    var t := LatestOf(g).windowEnd;
    AtTimeAppend(rest, x, EndOf, t);
    if |g| > 1 {
      LatestIsFirst(rest);
      LatestIsMember(rest);
      if x.windowEnd > LatestOf(rest).windowEnd {
        NoneAtTime(rest, EndOf, t);
      }
    } else {
      assert rest == [];
    }
  }

  lemma {:induction false} StableLatest(g: seq<Measurement>, h: seq<Measurement>)
    requires |g| > 0 && |h| > 0 && multiset(g) == multiset(h)
    requires forall t: Time :: AtTime(g, EndOf, t) == AtTime(h, EndOf, t)
    ensures LatestOf(g) == LatestOf(h)
  {
    SameMembers(g, h);
    LatestIsMember(g);
    LatestIsMember(h);
    LatestIsFirst(g);
    LatestIsFirst(h);
  }

  lemma {:induction false} SameGroupSameValue(p: Inputs, q: Inputs, group: seq<Measurement>)
    requires p.windowStart == q.windowStart && p.windowEnd == q.windowEnd
    ensures |group| > 0 ==> ValueOf(p, ReadingOf(p, group)) == ValueOf(q, ReadingOf(q, group))
  {
    if |group| > 0 {
      FilterMapAgrees(group, (m: Measurement) => DetectedIn(p, m), (m: Measurement) => DetectedIn(q, m));
      FilterMapAgrees(group, (m: Measurement) => TrendSampleIn(p, m), (m: Measurement) => TrendSampleIn(q, m));
      FilterMapAgrees(group, (m: Measurement) => CountIn(p, m), (m: Measurement) => CountIn(q, m));
    }
  }

  /** No two usable measurements of one point end at the same time. */
  ghost predicate DistinctEnds(in_: Inputs) {
    forall m, n | m in in_.measurements && n in in_.measurements && in_.Usable(m) && in_.Usable(n) ::
      m.pointId == n.pointId && m.windowEnd == n.windowEnd ==> m == n
  }

  /** Reordering mappings and measurements changes nothing. */
  lemma {:induction false} OrderDoesNotMatter(id: Id, p: Inputs, q: Inputs)
    requires SameCycle(p, q) && multiset(p.measurements) == multiset(q.measurements) && DistinctEnds(p)
    ensures SnapshotOf(id, p) == SnapshotOf(id, q)
  {
    forall x
      ensures PointValueOf(p, x) == PointValueOf(q, x)
    {
      SamePointValue(p, q, x);
    }
    SameValuesSameSnapshot(id, p, q);
  }

  lemma {:induction false} SamePointValue(p: Inputs, q: Inputs, id: Id)
    requires SameCycle(p, q) && multiset(p.measurements) == multiset(q.measurements) && DistinctEnds(p)
    ensures PointValueOf(p, id) == PointValueOf(q, id)
  {
    var of := (m: Measurement) => m.pointId == id && p.Usable(m);
    forall m
      ensures q.Usable(m) <==> p.Usable(m)
    {
      SameUsable(p, q, m);
    }
    FilterAgrees(q.measurements, of, (m: Measurement) => m.pointId == id && q.Usable(m));
    FilterPermuted(p.measurements, q.measurements, of);
    var g, h := PointGroup(p, p.measurements, id), PointGroup(q, q.measurements, id);
    assert |g| == |multiset(g)| == |multiset(h)| == |h|;
    FilterMembers(p.measurements, of);
    SameMembers(g, h);
    if |g| > 0 {
      SameGroupSameValue(p, q, h);
      ReorderedReading(p, g, h);
      ReorderedValue(p, ReadingOf(p, g), ReadingOf(p, h));
    }
  }

  /** Readings that differ in the order of their lists at most. */
  ghost predicate ReorderedReadings(r: Reading, t: Reading) {
    r.latest == t.latest && r.countIn == t.countIn
    && multiset(r.detected) == multiset(t.detected) && multiset(r.trend) == multiset(t.trend)
  }

  lemma {:induction false} ReorderedReading(in_: Inputs, g: seq<Measurement>, h: seq<Measurement>)
    requires |g| > 0 && |h| > 0 && multiset(g) == multiset(h)
    requires forall m, n :: m in g && n in g && m.windowEnd == n.windowEnd ==> m == n
    ensures ReorderedReadings(ReadingOf(in_, g), ReadingOf(in_, h))
  {
    ReorderedLatest(g, h);
    ReorderedLists(in_, g, h);
  }

  lemma {:induction false} ReorderedLists(in_: Inputs, g: seq<Measurement>, h: seq<Measurement>)
    requires |g| > 0 && |h| > 0 && multiset(g) == multiset(h) && LatestOf(g) == LatestOf(h)
    ensures ReorderedReadings(ReadingOf(in_, g), ReadingOf(in_, h))
  {
    FilterMapPermuted(g, h, (m: Measurement) => DetectedIn(in_, m));
    FilterMapPermuted(g, h, (m: Measurement) => TrendSampleIn(in_, m));
    FilterMapPermuted(g, h, (m: Measurement) => CountIn(in_, m));
    SumIntPermuted(FilterMap(g, (m: Measurement) => CountIn(in_, m)),
                   FilterMap(h, (m: Measurement) => CountIn(in_, m)));
  }

  lemma {:induction false} ReorderedValue(in_: Inputs, r: Reading, t: Reading)
    requires ReorderedReadings(r, t)
    ensures ValueOf(in_, r) == ValueOf(in_, t)
  {
    SumPermuted(r.detected, t.detected);
    TrendPermuted(r.trend, t.trend);
  }

  lemma {:induction false} ReorderedLatest(g: seq<Measurement>, h: seq<Measurement>)
    requires |g| > 0 && |h| > 0 && multiset(g) == multiset(h)
    requires forall m, n :: m in g && n in g && m.windowEnd == n.windowEnd ==> m == n
    ensures LatestOf(g) == LatestOf(h)
  {
    SameMembers(g, h);
    LatestIsMember(g);
    LatestIsMember(h);
  }
}
