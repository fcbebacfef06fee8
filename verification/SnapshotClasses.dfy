/** Which list of a snapshot each graph element lands in, and when a composition is defined. */
module SnapshotClasses {
  import opened Basics
  import opened Seqs
  import opened Sorting
  import opened Domain
  import opened SensorSets
  import opened Snapshots

  /** Mapping i maps a camera to the anchor. */
  ghost predicate CameraAt(in_: Inputs, a: GraphAnchor, i: int) {
    && 0 <= i < |in_.mappings| && in_.mappings[i].anchor == a
    && in_.mappings[i].kind.Camera? && in_.Accepts(in_.mappings[i])
  }

  ghost predicate HasCamera(in_: Inputs, a: GraphAnchor) {
    exists i :: CameraAt(in_, a, i)
  }

  /** The point has a usable measurement. */
  ghost predicate Measured(in_: Inputs, p: Id) {
    exists x :: x in in_.measurements && x.pointId == p && in_.Usable(x)
  }

  /** The point has a usable measurement that ends in the window. */
  ghost predicate MeasuredInWindow(in_: Inputs, p: Id) {
    exists x :: x in in_.measurements && x.pointId == p && in_.Usable(x) && x.windowEnd > in_.windowStart
  }

  ghost predicate HasFresh(in_: Inputs, a: GraphAnchor) {
    exists i :: CameraAt(in_, a, i) && MeasuredInWindow(in_, in_.mappings[i].pointId)
  }

  ghost predicate HasHeld(in_: Inputs, a: GraphAnchor) {
    exists i :: CameraAt(in_, a, i) && Measured(in_, in_.mappings[i].pointId)
  }

  lemma {:induction false} ValueMeans(in_: Inputs, p: Id)
    ensures PointValueOf(in_, p).Some? <==> Measured(in_, p)
    ensures PointValueOf(in_, p).Some? && PointValueOf(in_, p).value.isFresh <==> MeasuredInWindow(in_, p)
  {
    var group := PointGroup(in_, in_.measurements, p);
    FilterMembers(in_.measurements, (m: Measurement) => m.pointId == p && in_.Usable(m));
    if |group| > 0 {
      LatestIsMember(group);
      assert group[0] in group;
    }
  }

  lemma {:induction false} GroupCameras(in_: Inputs, a: GraphAnchor)
    requires in_.windowStart < in_.windowEnd
    ensures var s := ScoreOf(in_, AnchorGroup(in_, in_.mappings, a));
      && (s.cameras > 0 <==> HasCamera(in_, a))
      && (|s.freshScores| > 0 <==> HasFresh(in_, a))
      && (|s.heldScores| > 0 || |s.freshScores| > 0 <==> HasHeld(in_, a))
  {
    var group := AnchorGroup(in_, in_.mappings, a);
    var s := ScoreOf(in_, group);
    GroupCameraCount(in_, a);
    GroupFresh(in_, a);
    GroupHeld(in_, a);
  }

  lemma {:induction false} GroupCameraCount(in_: Inputs, a: GraphAnchor)
    ensures |Filter(AnchorGroup(in_, in_.mappings, a), (m: ObservationPointMapping) => m.kind.Camera?)| > 0
       <==> HasCamera(in_, a)
  {
    var camera := (m: ObservationPointMapping) => m.kind.Camera?;
    var group := AnchorGroup(in_, in_.mappings, a);
    var cameras := Filter(group, camera);
    FilterMembers(in_.mappings, (m: ObservationPointMapping) => m.anchor == a && in_.Accepts(m));
    FilterMembers(group, camera);
    if |cameras| > 0 {
      assert cameras[0] in cameras;
      var i :| 0 <= i < |in_.mappings| && in_.mappings[i] == cameras[0];
      assert CameraAt(in_, a, i);
    }
    if i :| CameraAt(in_, a, i) {
      assert in_.mappings[i] in cameras;
    }
  }

  lemma {:induction false} GroupFresh(in_: Inputs, a: GraphAnchor)
    ensures |FilterMap(AnchorGroup(in_, in_.mappings, a), (m: ObservationPointMapping) => FreshScoreOf(in_, m))| > 0
       <==> HasFresh(in_, a)
  {
    FilterMapSome(in_.mappings, (m: ObservationPointMapping) => m.anchor == a && in_.Accepts(m),
                  (m: ObservationPointMapping) => FreshScoreOf(in_, m));
    forall i | 0 <= i < |in_.mappings|
      ensures FreshScoreOf(in_, in_.mappings[i]).Some?
         <==> in_.mappings[i].kind.Camera? && MeasuredInWindow(in_, in_.mappings[i].pointId)
    {
      ValueMeans(in_, in_.mappings[i].pointId);
    }
    hide FreshScoreOf, MeasuredInWindow, Inputs.Accepts;
  }

  predicate SomeHeldOrFresh(in_: Inputs, group: seq<ObservationPointMapping>) {
    || |FilterMap(group, (m: ObservationPointMapping) => HeldScoreOf(in_, m))| > 0
    || |FilterMap(group, (m: ObservationPointMapping) => FreshScoreOf(in_, m))| > 0
  }

  lemma {:induction false} GroupHeld(in_: Inputs, a: GraphAnchor)
    ensures SomeHeldOrFresh(in_, AnchorGroup(in_, in_.mappings, a)) <==> HasHeld(in_, a)
  {
    FilterMapSome(in_.mappings, (m: ObservationPointMapping) => m.anchor == a && in_.Accepts(m),
                  (m: ObservationPointMapping) => HeldScoreOf(in_, m));
    FilterMapSome(in_.mappings, (m: ObservationPointMapping) => m.anchor == a && in_.Accepts(m),
                  (m: ObservationPointMapping) => FreshScoreOf(in_, m));
    forall i | 0 <= i < |in_.mappings|
      ensures HeldScoreOf(in_, in_.mappings[i]).Some? || FreshScoreOf(in_, in_.mappings[i]).Some?
         <==> in_.mappings[i].kind.Camera? && Measured(in_, in_.mappings[i].pointId)
    {
      ValueMeans(in_, in_.mappings[i].pointId);
    }
    hide FreshScoreOf, HeldScoreOf, Measured, Inputs.Accepts;
  }

  /** The class of an anchor, said of its cameras and their measurements. */
  lemma {:induction false} ClassMeans(in_: Inputs, a: GraphAnchor)
    requires in_.windowStart < in_.windowEnd
    ensures OutcomeOf(in_, a).Is(OK) <==> !HasCamera(in_, a) || HasFresh(in_, a)
    ensures OutcomeOf(in_, a).Is(Hold) <==> HasHeld(in_, a) && !HasFresh(in_, a)
    ensures OutcomeOf(in_, a).Is(Invalid) <==> HasCamera(in_, a) && !HasHeld(in_, a)
  {
    GroupCameras(in_, a);
  }

  lemma {:induction false} AnchorsMean(in_: Inputs)
    ensures StrictlySorted(Anchors(in_), AnchorBefore)
    ensures forall a :: a in Anchors(in_) <==>
              exists i :: 0 <= i < |in_.mappings| && in_.mappings[i].anchor == a && in_.Accepts(in_.mappings[i])
  {
    AnchorOrder();
    SortedDistinctIsSorted(AcceptedAnchors(in_, in_.mappings), AnchorBefore);
    FilterMapMembers(in_.mappings, (m: ObservationPointMapping) => if in_.Accepts(m) then Some(m.anchor) else None);
    forall a
      ensures a in Anchors(in_)
         <==> exists i :: 0 <= i < |in_.mappings| && in_.mappings[i].anchor == a && in_.Accepts(in_.mappings[i])
    {
      if i :| 0 <= i < |in_.mappings| && in_.mappings[i].anchor == a && in_.Accepts(in_.mappings[i]) {
        assert a in AcceptedAnchors(in_, in_.mappings);
      }
    }
  }

  predicate AllOne(ids: seq<Id>) {
    |ids| > 0 && forall id :: id in ids ==> id == ids[0]
  }

  lemma {:induction false} OneDistinct(ids: seq<Id>)
    ensures |SortedDistinct(ids, Before)| == 1 <==> AllOne(ids)
  {
    var sorted := SortedDistinct(ids, Before);
    IdOrder();
    SortedDistinctIsSorted(ids, Before);
    if |sorted| == 1 {
      assert sorted[0] in sorted;
      assert ids[0] in sorted;
      assert forall id :: id in sorted ==> id == sorted[0];
    }
    if AllOne(ids) {
      assert ids[0] in sorted;
      SortedUnique(sorted, [ids[0]], Before);
    }
  }

  /** An anchor has one distinct sensor exactly when all its accepted mappings are of one point. */
  lemma {:induction false} OneSensorMeans(in_: Inputs, a: GraphAnchor)
    requires in_.windowStart < in_.windowEnd
    ensures |OutcomeOf(in_, a).sensors| == 1 <==> AllOne(PointsOf(AnchorGroup(in_, in_.mappings, a)))
  {
    OneDistinct(PointsOf(AnchorGroup(in_, in_.mappings, a)));
  }

  /** The points of some mappings. */
  function PointsOf(group: seq<ObservationPointMapping>): seq<Id> {
    Map(group, (m: ObservationPointMapping) => m.pointId)
  }

  function QrCountOf(in_: Inputs, m: ObservationPointMapping): Option<int> {
    match PointValueOf(in_, m.pointId)
    case Some(v) => if m.kind.QR? then Some(v.countIn) else None
    case None => None
  }

  /** The QR rate of some mappings gives back all people that their points counted in the window. */
  lemma {:induction false} QrRateGivesCounts(in_: Inputs, group: seq<ObservationPointMapping>)
    requires in_.windowStart < in_.windowEnd
    ensures Times(ScoreOf(in_, group).qrRateIn, in_.WindowMinutes())
         == SumInt(FilterMap(group, (m: ObservationPointMapping) => QrCountOf(in_, m))) as real
  {
    forall m
      ensures IsRate(QrRateOf(in_, m), QrCountOf(in_, m), in_.WindowMinutes())
    {
      QrRateIsRate(in_, m);
    }
    RatesGiveCounts(group, (m: ObservationPointMapping) => QrRateOf(in_, m),
                    (m: ObservationPointMapping) => QrCountOf(in_, m), in_.WindowMinutes());
  }

  predicate IsRate(rate: Option<real>, count: Option<int>, minutes: real) {
    (rate.Some? <==> count.Some?) && (rate.Some? ==> Times(rate.value, minutes) == count.value as real)
  }

  lemma {:induction false} QrRateIsRate(in_: Inputs, m: ObservationPointMapping)
    requires in_.windowStart < in_.windowEnd
    ensures IsRate(QrRateOf(in_, m), QrCountOf(in_, m), in_.WindowMinutes())
  {
    hide PointValueOf;
    if QrCountOf(in_, m).Some? {
      DividedBack(QrCountOf(in_, m).value, in_.WindowMinutes());
    }
  }

  lemma {:induction false} RatesGiveCounts<T(!new)>(group: seq<T>, rates: T -> Option<real>,
      counts: T -> Option<int>, minutes: real)
    requires forall m :: IsRate(rates(m), counts(m), minutes)
    ensures Times(Sum(FilterMap(group, rates)), minutes) == SumInt(FilterMap(group, counts)) as real
  {
    if |group| > 0 {
      var rest, l := group[..|group| - 1], group[|group| - 1];
      RatesGiveCounts(rest, rates, counts, minutes);
      assert IsRate(rates(l), counts(l), minutes);
      if rates(l).Some? {
        OneMoreRate(Sum(FilterMap(rest, rates)), rates(l).value, minutes);
      }
    }
  }

  lemma {:induction false} OneMoreRate(sum: real, rate: real, minutes: real)
    ensures Times(sum + rate, minutes) == Times(sum, minutes) + Times(rate, minutes)
  {
  }

  lemma {:induction false} DividedBack(count: int, minutes: real)
    requires minutes > 0.0
    ensures Times(count as real / minutes, minutes) == count as real
  {
  }

  /** Every mapping that composes names exactly one graph element. */
  ghost predicate ExclusiveAnchors(in_: Inputs) {
    forall a :: a in Anchors(in_) ==> Exclusive(a)
  }

  function RouteIds(scores: seq<RouteScore>): seq<Id> {
    Map(scores, (r: RouteScore) => r.routeId)
  }

  function PointIds(scores: seq<PointScore>): seq<Id> {
    Map(scores, (p: PointScore) => p.pointId)
  }

  /** The IDs of the routes (or points) among the anchors whose outcome is at one of the levels. */
  function IdsAt(anchors: seq<GraphAnchor>, outcomes: map<GraphAnchor, AnchorOutcome>, routes: bool,
      levels: set<Confidence>): seq<Id> {
    FilterMap(anchors, (a: GraphAnchor) => IdAt(a, outcomes, routes, levels))
  }

  function IdAt(a: GraphAnchor, outcomes: map<GraphAnchor, AnchorOutcome>, routes: bool,
      levels: set<Confidence>): Option<Id> {
    if a !in outcomes || outcomes[a].composed.confidence !in levels then None
    else if routes then (if a.routeId != "" then Some(a.routeId) else None)
    else if a.routeId == "" && a.pointId != "" then Some(a.pointId) else None
  }

  /** The anchor of an element. */
  function AnchorFor(routes: bool, id: Id): GraphAnchor {
    if routes then RouteAnchor(id) else PointAnchor(id)
  }

  predicate IsAt(anchors: seq<GraphAnchor>, outcomes: map<GraphAnchor, AnchorOutcome>, routes: bool,
      levels: set<Confidence>, id: Id)
    requires forall a :: a in anchors ==> a in outcomes
  {
    id != "" && AnchorFor(routes, id) in anchors && outcomes[AnchorFor(routes, id)].composed.confidence in levels
  }

  /** A list of IDs holds exactly the elements at the given levels. */
  lemma {:induction false} IdsAtMembers(anchors: seq<GraphAnchor>, outcomes: map<GraphAnchor, AnchorOutcome>,
      routes: bool, levels: set<Confidence>)
    requires forall a :: a in anchors ==> Exclusive(a) && a in outcomes
    ensures forall id :: id in IdsAt(anchors, outcomes, routes, levels) <==> IsAt(anchors, outcomes, routes, levels, id)
  {
    var f := (a: GraphAnchor) => IdAt(a, outcomes, routes, levels);
    FilterMapMembers(anchors, f);
    forall id
      ensures id in IdsAt(anchors, outcomes, routes, levels) <==> IsAt(anchors, outcomes, routes, levels, id)
    {
      if id in IdsAt(anchors, outcomes, routes, levels) {
        var i :| 0 <= i < |anchors| && f(anchors[i]) == Some(id);
        assert anchors[i] == AnchorFor(routes, id);
      }
      if IsAt(anchors, outcomes, routes, levels, id) {
        var i :| 0 <= i < |anchors| && anchors[i] == AnchorFor(routes, id);
        assert f(anchors[i]) == Some(id);
      }
    }
  }

  lemma {:induction false} IdsAtSorted(anchors: seq<GraphAnchor>, outcomes: map<GraphAnchor, AnchorOutcome>,
      routes: bool, levels: set<Confidence>)
    requires StrictlySorted(anchors, AnchorBefore)
    requires forall a :: a in anchors ==> Exclusive(a) && a in outcomes
    ensures StrictlySorted(IdsAt(anchors, outcomes, routes, levels), Before)
  {
    if |anchors| > 0 {
      var rest, l := anchors[..|anchors| - 1], anchors[|anchors| - 1];
      assert anchors == rest + [l];
      IdsAtSorted(rest, outcomes, routes, levels);
      if IdAt(l, outcomes, routes, levels).Some? {
        IdsBelow(rest, l, outcomes, routes, levels);
        hide IdAt, Before;
      }
    }
  }

  lemma {:induction false} IdsBelow(rest: seq<GraphAnchor>, l: GraphAnchor,
      outcomes: map<GraphAnchor, AnchorOutcome>, routes: bool, levels: set<Confidence>)
    requires StrictlySorted(rest + [l], AnchorBefore) && IdAt(l, outcomes, routes, levels).Some?
    requires Exclusive(l) && forall a :: a in rest ==> Exclusive(a)
    ensures var ids := IdsAt(rest, outcomes, routes, levels);
      forall j :: 0 <= j < |ids| ==> Before(ids[j], IdAt(l, outcomes, routes, levels).value)
  {
    var next := IdAt(l, outcomes, routes, levels).value;
    forall i | 0 <= i < |rest| && IdAt(rest[i], outcomes, routes, levels).Some?
      ensures Before(IdAt(rest[i], outcomes, routes, levels).value, next)
    {
      assert AnchorBefore((rest + [l])[i], (rest + [l])[|rest|]);
      IdsFollow(rest[i], l, outcomes, routes, levels);
    }
    hide IdAt, Before;
    FilterMapAll(rest, (a: GraphAnchor) => IdAt(a, outcomes, routes, levels), (id: Id) => Before(id, next));
  }

  lemma {:induction false} IdsFollow(a: GraphAnchor, l: GraphAnchor, outcomes: map<GraphAnchor, AnchorOutcome>,
      routes: bool, levels: set<Confidence>)
    requires AnchorBefore(a, l) && Exclusive(a) && Exclusive(l)
    requires IdAt(a, outcomes, routes, levels).Some? && IdAt(l, outcomes, routes, levels).Some?
    ensures Before(IdAt(a, outcomes, routes, levels).value, IdAt(l, outcomes, routes, levels).value)
  {
    BeforeIrreflexive("");
  }

  lemma {:induction false} RoutesById(anchors: seq<GraphAnchor>, outcomes: map<GraphAnchor, AnchorOutcome>,
      level: Confidence)
    ensures RouteIds(RoutesAt(anchors, outcomes, level)) == IdsAt(anchors, outcomes, true, {level})
  {
    if |anchors| > 0 {
      RoutesById(anchors[..|anchors| - 1], outcomes, level);
    }
  }

  lemma {:induction false} PointsById(anchors: seq<GraphAnchor>, outcomes: map<GraphAnchor, AnchorOutcome>,
      level: Confidence)
    ensures PointIds(PointsAt(anchors, outcomes, level)) == IdsAt(anchors, outcomes, false, {level})
  {
    if |anchors| > 0 {
      PointsById(anchors[..|anchors| - 1], outcomes, level);
    }
  }

  lemma {:induction false} InvalidById(anchors: seq<GraphAnchor>, outcomes: map<GraphAnchor, AnchorOutcome>)
    ensures InvalidRoutes(anchors, outcomes) == IdsAt(anchors, outcomes, true, {Invalid})
    ensures InvalidPoints(anchors, outcomes) == IdsAt(anchors, outcomes, false, {Invalid})
  {
    if |anchors| > 0 {
      InvalidById(anchors[..|anchors| - 1], outcomes);
    }
  }

  lemma {:induction false} MissingById(anchors: seq<GraphAnchor>, outcomes: map<GraphAnchor, AnchorOutcome>)
    ensures MissingRoutes(anchors, outcomes) == IdsAt(anchors, outcomes, true, {Hold, Invalid})
    ensures MissingPoints(anchors, outcomes) == IdsAt(anchors, outcomes, false, {Hold, Invalid})
  {
    if |anchors| > 0 {
      MissingById(anchors[..|anchors| - 1], outcomes);
    }
  }

  /** The four lists of IDs that a composition puts routes (or points) in. */
  datatype IdLists = IdLists(ok: seq<Id>, held: seq<Id>, invalid: seq<Id>, missing: seq<Id>)

  function ListsIn(s: Snapshot, g: Gaps, routes: bool): IdLists {
    if routes then IdLists(RouteIds(s.routeScores), RouteIds(g.heldRouteScores), g.invalidRouteIds, s.missing.routeIds)
    else IdLists(PointIds(s.pointScores), PointIds(g.heldPointScores), g.invalidPointIds, s.missing.pointIds)
  }

  ghost predicate AllSorted(l: IdLists) {
    && StrictlySorted(l.ok, Before) && StrictlySorted(l.held, Before)
    && StrictlySorted(l.invalid, Before) && StrictlySorted(l.missing, Before)
  }

  /** An element is in the list of its class, and in no other. */
  ghost predicate InItsList(e: Id, level: Confidence, l: IdLists) {
    && (e in l.ok <==> level == OK)
    && (e in l.held <==> level == Hold)
    && (e in l.invalid <==> level == Invalid)
    && (e in l.missing <==> level == Hold || level == Invalid)
  }

  ghost predicate InNoList(e: Id, l: IdLists) {
    e !in l.ok && e !in l.held && e !in l.invalid && e !in l.missing
  }

  /** With one graph element to an anchor, each accepted element is in exactly the list of its
      class, no list holds anything else, and all lists are strictly sorted. */
  lemma {:induction false} EachElementInItsList(id: Id, in_: Inputs, routes: bool, e: Id)
    requires in_.windowStart < in_.windowEnd && ExclusiveAnchors(in_)
    requires SnapshotOf(id, in_).Composed?
    ensures var l := ListsIn(SnapshotOf(id, in_).snapshot, SnapshotOf(id, in_).gaps, routes);
      && AllSorted(l)
      && (if e != "" && AnchorFor(routes, e) in Anchors(in_)
          then InItsList(e, OutcomeOf(in_, AnchorFor(routes, e)).composed.confidence, l)
          else InNoList(e, l))
  {
    var anchors, outcomes := Anchors(in_), OutcomesOf(in_);
    AnchorsMean(in_);
    ListsById(id, in_, routes);
    var l := ListsIn(SnapshotOf(id, in_).snapshot, SnapshotOf(id, in_).gaps, routes);
    ListAt(l.ok, anchors, outcomes, routes, {OK}, e);
    ListAt(l.held, anchors, outcomes, routes, {Hold}, e);
    ListAt(l.invalid, anchors, outcomes, routes, {Invalid}, e);
    ListAt(l.missing, anchors, outcomes, routes, {Hold, Invalid}, e);
  }

  lemma {:induction false} ListAt(ids: seq<Id>, anchors: seq<GraphAnchor>,
      outcomes: map<GraphAnchor, AnchorOutcome>, routes: bool, levels: set<Confidence>, e: Id)
    requires StrictlySorted(anchors, AnchorBefore)
    requires forall a :: a in anchors ==> Exclusive(a) && a in outcomes
    requires ids == IdsAt(anchors, outcomes, routes, levels)
    ensures StrictlySorted(ids, Before)
    ensures e in ids <==> IsAt(anchors, outcomes, routes, levels, e)
  {
    IdsAtSorted(anchors, outcomes, routes, levels);
    IdsAtMembers(anchors, outcomes, routes, levels);
  }

  lemma {:induction false} ListsById(id: Id, in_: Inputs, routes: bool)
    requires in_.windowStart < in_.windowEnd && SnapshotOf(id, in_).Composed?
    ensures var l := ListsIn(SnapshotOf(id, in_).snapshot, SnapshotOf(id, in_).gaps, routes);
      && l.ok == IdsAt(Anchors(in_), OutcomesOf(in_), routes, {OK})
      && l.held == IdsAt(Anchors(in_), OutcomesOf(in_), routes, {Hold})
      && l.invalid == IdsAt(Anchors(in_), OutcomesOf(in_), routes, {Invalid})
      && l.missing == IdsAt(Anchors(in_), OutcomesOf(in_), routes, {Hold, Invalid})
  {
    var anchors, outcomes := Anchors(in_), OutcomesOf(in_);
    RoutesById(anchors, outcomes, OK);
    RoutesById(anchors, outcomes, Hold);
    PointsById(anchors, outcomes, OK);
    PointsById(anchors, outcomes, Hold);
    InvalidById(anchors, outcomes);
    MissingById(anchors, outcomes);
  }

  /** A composition meets what observation cycles rely on. */
  lemma {:induction false} SnapshotIsWellComposed(id: Id, in_: Inputs)
    requires in_.windowStart < in_.windowEnd
    ensures WellComposed(SnapshotOf(id, in_), in_.windowEnd)
  {
    var anchors, outcomes := Anchors(in_), OutcomesOf(in_);
    AnchorsMean(in_);
    SetsAreDistinct(anchors, outcomes);
    PointsHaveSets(anchors, outcomes);
    RoutesHaveSets(anchors, outcomes);
  }

  lemma {:induction false} PointsHaveSets(anchors: seq<GraphAnchor>, outcomes: map<GraphAnchor, AnchorOutcome>)
    ensures forall p :: p in PointsAt(anchors, outcomes, OK)
              ==> p.pointId != "" && HasSet(ComposedSets(anchors, outcomes), p.pointId, "")
  {
    var sets := ComposedSets(anchors, outcomes);
    forall p | p in PointsAt(anchors, outcomes, OK)
      ensures p.pointId != "" && HasSet(sets, p.pointId, "")
    {
      FilterMapMembers(anchors, (a: GraphAnchor) =>
        if a in outcomes && a.routeId == "" && a.pointId != "" && outcomes[a].Is(OK)
        then Some(outcomes[a].Point(a.pointId)) else None);
      var i :| 0 <= i < |anchors| && anchors[i] in outcomes && anchors[i].routeId == ""
        && anchors[i].pointId == p.pointId != ""
        && outcomes[anchors[i]].Is(OK);
      HasComposedSet(anchors, outcomes, i);
      var k :| 0 <= k < |sets| && sets[k].anchor == anchors[i];
      assert anchors[i] == GraphAnchor(p.pointId, "");
    }
  }

  lemma {:induction false} RoutesHaveSets(anchors: seq<GraphAnchor>, outcomes: map<GraphAnchor, AnchorOutcome>)
    ensures forall r :: r in RoutesAt(anchors, outcomes, OK)
              ==> r.routeId != "" && HasRouteSet(ComposedSets(anchors, outcomes), r.routeId)
  {
    var sets := ComposedSets(anchors, outcomes);
    forall r | r in RoutesAt(anchors, outcomes, OK)
      ensures r.routeId != "" && HasRouteSet(sets, r.routeId)
    {
      FilterMapMembers(anchors, (a: GraphAnchor) =>
        if a in outcomes && a.routeId != "" && outcomes[a].Is(OK) then Some(outcomes[a].Route(a.routeId)) else None);
      var i :| 0 <= i < |anchors| && anchors[i] in outcomes && anchors[i].routeId == r.routeId != ""
        && outcomes[anchors[i]].Is(OK);
      HasComposedSet(anchors, outcomes, i);
      var k :| 0 <= k < |sets| && sets[k].anchor == anchors[i];
    }
  }

  function ComposedSetAt(a: GraphAnchor, outcomes: map<GraphAnchor, AnchorOutcome>): Option<SensorSet> {
    if a in outcomes && Named(a) && outcomes[a].Is(OK) then Some(SensorSet(a, outcomes[a].sensors, ZERO_TIME)) else None
  }

  lemma {:induction false} SetsByAnchor(anchors: seq<GraphAnchor>, outcomes: map<GraphAnchor, AnchorOutcome>)
    ensures ComposedSets(anchors, outcomes) == FilterMap(anchors, (a: GraphAnchor) => ComposedSetAt(a, outcomes))
  {
    FilterMapAgrees(anchors, (a: GraphAnchor) =>
      if a in outcomes && Named(a) && outcomes[a].Is(OK)
      then Some(SensorSet(a, outcomes[a].sensors, ZERO_TIME)) else None,
      (a: GraphAnchor) => ComposedSetAt(a, outcomes));
  }

  lemma {:induction false} HasComposedSet(anchors: seq<GraphAnchor>, outcomes: map<GraphAnchor, AnchorOutcome>, i: int)
    requires 0 <= i < |anchors| && anchors[i] in outcomes && Named(anchors[i]) && outcomes[anchors[i]].Is(OK)
    ensures exists k :: 0 <= k < |ComposedSets(anchors, outcomes)| &&
              ComposedSets(anchors, outcomes)[k].anchor == anchors[i]
  {
    SetsByAnchor(anchors, outcomes);
    FilterMapMembers(anchors, (a: GraphAnchor) => ComposedSetAt(a, outcomes));
    var set_ := SensorSet(anchors[i], outcomes[anchors[i]].sensors, ZERO_TIME);
    assert ComposedSetAt(anchors[i], outcomes) == Some(set_);
    assert set_ in ComposedSets(anchors, outcomes);
  }

  lemma {:induction false} SetsAreDistinct(anchors: seq<GraphAnchor>, outcomes: map<GraphAnchor, AnchorOutcome>)
    requires StrictlySorted(anchors, AnchorBefore)
    ensures DistinctAnchors(ComposedSets(anchors, outcomes))
  {
    if |anchors| > 0 {
      var rest, l := anchors[..|anchors| - 1], anchors[|anchors| - 1];
      SetsAreDistinct(rest, outcomes);
      var sets := ComposedSets(rest, outcomes);
      forall i | 0 <= i < |sets|
        ensures sets[i].anchor != l
      {
        SetIsOfAnchor(rest, outcomes, i);
        var k :| 0 <= k < |rest| && rest[k] == sets[i].anchor;
        assert AnchorBefore(anchors[k], l);
        AnchorBeforeIrreflexive(l);
      }
      SetsByAnchor(anchors, outcomes);
      SetsByAnchor(rest, outcomes);
    }
  }

  lemma {:induction false} SetIsOfAnchor(anchors: seq<GraphAnchor>, outcomes: map<GraphAnchor, AnchorOutcome>, i: int)
    requires 0 <= i < |ComposedSets(anchors, outcomes)|
    ensures ComposedSets(anchors, outcomes)[i].anchor in anchors
  {
    SetsByAnchor(anchors, outcomes);
    FilterMapMembers(anchors, (a: GraphAnchor) => ComposedSetAt(a, outcomes));
    assert ComposedSets(anchors, outcomes)[i] in ComposedSets(anchors, outcomes);
  }
}
