/** The lists of a composed snapshot, said of the measurements and mappings alone. */
module SnapshotScores {
  import opened Basics
  import opened Seqs
  import opened Sorting
  import opened Domain
  import opened SensorSets
  import opened Snapshots
  import opened SnapshotClasses
  import opened SnapshotReference

  /** By route ID, then by point ID, each anchor once. */
  ghost predicate InOrder(anchors: seq<GraphAnchor>) {
    forall i, j :: 0 <= i < j < |anchors| ==>
      || Before(anchors[i].routeId, anchors[j].routeId)
      || (anchors[i].routeId == anchors[j].routeId && Before(anchors[i].pointId, anchors[j].pointId))
  }

  lemma {:induction false} FilterSorted(anchors: seq<GraphAnchor>, p: GraphAnchor -> bool)
    requires StrictlySorted(anchors, AnchorBefore)
    ensures StrictlySorted(Filter(anchors, p), AnchorBefore)
  {
    if |anchors| > 0 {
      var rest, l := anchors[..|anchors| - 1], anchors[|anchors| - 1];
      FilterSorted(rest, p);
      FilterMembers(rest, p);
      forall a | a in Filter(rest, p)
        ensures AnchorBefore(a, l)
      {
        var i :| 0 <= i < |rest| && rest[i] == a;
        assert anchors[i] == a;
      }
      hide AnchorBefore;
    }
  }

  /** What is picked of the accepted anchors, with the anchors that it is picked of. */
  lemma {:induction false} PickAnchors<V>(in_: Inputs, f: GraphAnchor -> Option<V>, picked: GraphAnchor -> bool,
      value: GraphAnchor -> V) returns (anchors: seq<GraphAnchor>)
    requires forall a :: IsAccepted(in_, a) ==> f(a) == if picked(a) then Some(value(a)) else None
    ensures InOrder(anchors)
    ensures forall a :: a in anchors <==> IsAccepted(in_, a) && picked(a)
    ensures FilterMap(Anchors(in_), f) == Map(anchors, value)
  {
    AcceptedAnchorsAre(in_);
    FilterSorted(Anchors(in_), picked);
    FilterMembers(Anchors(in_), picked);
    anchors := Filter(Anchors(in_), picked);
    var pick := a => if picked(a) then Some(a) else None;
    PickThenMap(Anchors(in_), f, pick, value);
    PickedIsFilter(Anchors(in_), picked, pick);
    hide Anchors, IsAccepted, Filter, FilterMap;
  }

  lemma {:induction false} AcceptedAnchorsAre(in_: Inputs)
    ensures StrictlySorted(Anchors(in_), AnchorBefore)
    ensures forall a :: a in Anchors(in_) <==> IsAccepted(in_, a)
  {
    AnchorsMean(in_);
    forall a
      ensures a in Anchors(in_) <==> IsAccepted(in_, a)
    {
      if m :| m in in_.mappings && AcceptedAt(in_, a, m) {
        var i :| 0 <= i < |in_.mappings| && in_.mappings[i] == m;
        assert in_.mappings[i].anchor == a && in_.Accepts(in_.mappings[i]);
      }
      if i :| 0 <= i < |in_.mappings| && in_.mappings[i].anchor == a && in_.Accepts(in_.mappings[i]) {
        assert in_.mappings[i] in in_.mappings && AcceptedAt(in_, a, in_.mappings[i]);
      }
    }
  }

  lemma {:induction false} OneClass(in_: Inputs, a: GraphAnchor)
    ensures IsScored(in_, a) || IsHeld(in_, a) ==> IsAccepted(in_, a) && !IsInvalid(in_, a)
    ensures IsInvalid(in_, a) ==> IsAccepted(in_, a)
  {
    CamerasAreFilmed(in_, a);
    if m :| m in in_.mappings && m.anchor == a && m.kind == Camera && m.pointId in in_.states {
      assert AcceptedAt(in_, a, m);
    }
    hide FreshCameras, HeldCameras;
  }

  /** The route scores of one class. */
  lemma {:induction false} RoutesOfClass(in_: Inputs, level: Confidence, class_: GraphAnchor -> bool)
    returns (anchors: seq<GraphAnchor>)
    requires in_.windowStart < in_.windowEnd && level != Invalid
    requires forall a :: class_(a) <==> if level == OK then IsScored(in_, a) else IsHeld(in_, a)
    ensures InOrder(anchors) && forall a :: a in anchors <==> class_(a) && a.routeId != ""
    ensures RoutesAt(Anchors(in_), OutcomesOf(in_), level) == Map(anchors, a => RouteScoreOf(in_, a))
  {
    var f := (a: GraphAnchor) =>
      if a in OutcomesOf(in_) && a.routeId != "" && OutcomesOf(in_)[a].Is(level)
      then Some(OutcomesOf(in_)[a].Route(a.routeId)) else None;
    AcceptedAnchorsAre(in_);
    forall a | IsAccepted(in_, a)
      ensures f(a) == if class_(a) && a.routeId != "" then Some(RouteScoreOf(in_, a)) else None
    {
      ClassIs(in_, a);
      OneClass(in_, a);
      if class_(a) {
        RouteIs(in_, a);
      }
      hide OutcomeOf, RouteScoreOf, IsScored, IsHeld, IsInvalid, IsAccepted;
    }
    anchors := PickAnchors(in_, f, a => class_(a) && a.routeId != "", a => RouteScoreOf(in_, a));
    forall a | class_(a) {
      OneClass(in_, a);
    }
    hide OutcomesOf, RouteScoreOf, IsScored, IsHeld, IsInvalid, IsAccepted, Anchors;
  }

  lemma {:induction false} PointsOfClass(in_: Inputs, level: Confidence, class_: GraphAnchor -> bool)
    returns (anchors: seq<GraphAnchor>)
    requires in_.windowStart < in_.windowEnd && level != Invalid
    requires forall a :: class_(a) <==> if level == OK then IsScored(in_, a) else IsHeld(in_, a)
    ensures InOrder(anchors) && forall a :: a in anchors <==> class_(a) && a.routeId == "" && a.pointId != ""
    ensures PointsAt(Anchors(in_), OutcomesOf(in_), level) == Map(anchors, a => PointScoreOf(in_, a))
  {
    var f := (a: GraphAnchor) =>
      if a in OutcomesOf(in_) && a.routeId == "" && a.pointId != "" && OutcomesOf(in_)[a].Is(level)
      then Some(OutcomesOf(in_)[a].Point(a.pointId)) else None;
    AcceptedAnchorsAre(in_);
    forall a | IsAccepted(in_, a)
      ensures f(a) == if class_(a) && a.routeId == "" && a.pointId != "" then Some(PointScoreOf(in_, a)) else None
    {
      ClassIs(in_, a);
      OneClass(in_, a);
      if class_(a) {
        PointIs(in_, a);
      }
      hide OutcomeOf, PointScoreOf, IsScored, IsHeld, IsInvalid, IsAccepted;
    }
    anchors := PickAnchors(in_, f, a => class_(a) && a.routeId == "" && a.pointId != "", a => PointScoreOf(in_, a));
    forall a | class_(a) {
      OneClass(in_, a);
    }
    hide OutcomesOf, PointScoreOf, IsScored, IsHeld, IsInvalid, IsAccepted, Anchors;
  }

  /** The route scores of a composed snapshot, and those that are only held, said of the measurements
      and mappings alone: one for each such anchor, in order. */
  lemma {:induction false} RouteScoresAre(id: Id, in_: Inputs)
    returns (scored: seq<GraphAnchor>, held: seq<GraphAnchor>)
    requires in_.windowStart < in_.windowEnd && SnapshotOf(id, in_).Composed?
    ensures InOrder(scored) && forall a :: a in scored <==> IsScored(in_, a) && a.routeId != ""
    ensures InOrder(held) && forall a :: a in held <==> IsHeld(in_, a) && a.routeId != ""
    ensures SnapshotOf(id, in_).snapshot.routeScores == Map(scored, a => RouteScoreOf(in_, a))
    ensures SnapshotOf(id, in_).gaps.heldRouteScores == Map(held, a => RouteScoreOf(in_, a))
  {
    scored := RoutesOfClass(in_, OK, a => IsScored(in_, a));
    held := RoutesOfClass(in_, Hold, a => IsHeld(in_, a));
    hide RoutesAt, OutcomesOf, Anchors, RouteScoreOf, IsScored, IsHeld, InOrder, HasUndefined, Panics, PointsAt,
      InvalidPoints, InvalidRoutes, MissingPoints, MissingRoutes, ComposedSets, Resolutions;
  }

  lemma {:induction false} PointScoresAre(id: Id, in_: Inputs)
    returns (scored: seq<GraphAnchor>, held: seq<GraphAnchor>)
    requires in_.windowStart < in_.windowEnd && SnapshotOf(id, in_).Composed?
    ensures InOrder(scored)
    ensures forall a :: a in scored <==> IsScored(in_, a) && a.routeId == "" && a.pointId != ""
    ensures InOrder(held) && forall a :: a in held <==> IsHeld(in_, a) && a.routeId == "" && a.pointId != ""
    ensures SnapshotOf(id, in_).snapshot.pointScores == Map(scored, a => PointScoreOf(in_, a))
    ensures SnapshotOf(id, in_).gaps.heldPointScores == Map(held, a => PointScoreOf(in_, a))
  {
    scored := PointsOfClass(in_, OK, a => IsScored(in_, a));
    held := PointsOfClass(in_, Hold, a => IsHeld(in_, a));
    hide RoutesAt, OutcomesOf, Anchors, PointScoreOf, IsScored, IsHeld, InOrder, HasUndefined, Panics, PointsAt,
      InvalidPoints, InvalidRoutes, MissingPoints, MissingRoutes, ComposedSets, Resolutions;
  }

  /** A set that composed a score holds exactly the accepted points of its anchor, in order. */
  ghost predicate IsSetOf(in_: Inputs, a: GraphAnchor, s: SensorSet) {
    && s.anchor == a && s.changedAt == 0
    && (forall i, j :: 0 <= i < j < |s.pointIds| ==> Before(s.pointIds[i], s.pointIds[j]))
    && (forall p :: p in s.pointIds <==> exists m :: m in in_.mappings && AcceptedAt(in_, a, m) && m.pointId == p)
  }

  lemma {:induction false} SetIs(in_: Inputs, a: GraphAnchor)
    requires in_.windowStart < in_.windowEnd
    ensures IsSetOf(in_, a, SensorSet(a, OutcomeOf(in_, a).sensors, 0))
  {
    var ids := PointsOf(AnchorGroup(in_, in_.mappings, a));
    IdOrder();
    SortedDistinctIsSorted(ids, Before);
    GroupIs(in_, a);
    PointsOfMembers(AnchorGroup(in_, in_.mappings, a));
    assert OutcomeOf(in_, a).sensors == SortedDistinct(ids, Before);
    hide OutcomeOf, AnchorGroup, SortedDistinct, PointsOf, AcceptedAt, Before;
  }

  /** The sensor sets of a composed snapshot, in the order of their anchors. */
  lemma {:induction false} SensorSetsAre(id: Id, in_: Inputs) returns (scored: seq<GraphAnchor>)
    requires in_.windowStart < in_.windowEnd && !SnapshotOf(id, in_).NilDereference?
    ensures InOrder(scored)
    ensures forall a :: a in scored <==> IsScored(in_, a) && (a.routeId != "" || a.pointId != "")
    ensures |SnapshotOf(id, in_).sensors| == |scored|
    ensures forall i :: 0 <= i < |scored| ==> IsSetOf(in_, scored[i], SnapshotOf(id, in_).sensors[i])
  {
    var f := (a: GraphAnchor) => ComposedSetAt(a, OutcomesOf(in_));
    var value := (a: GraphAnchor) => SensorSet(a, OutcomeOf(in_, a).sensors, 0);
    SetsByAnchor(Anchors(in_), OutcomesOf(in_));
    forall a {
      SetIs(in_, a);
    }
    forall a | IsScored(in_, a) {
      OneClass(in_, a);
    }
    forall a | IsAccepted(in_, a) {
      SetAt(in_, a);
    }
    hide RoutesAt, OutcomesOf, OutcomeOf, Anchors, IsScored, IsHeld, InOrder, HasUndefined, Panics, PointsAt,
      InvalidPoints, InvalidRoutes, MissingPoints, MissingRoutes, ComposedSets, Resolutions, IsSetOf, IsAccepted,
      ComposedSetAt;
    scored := PickAnchors(in_, f, a => IsScored(in_, a) && Named(a), value);
  }

  lemma {:induction false} SetAt(in_: Inputs, a: GraphAnchor)
    requires in_.windowStart < in_.windowEnd && IsAccepted(in_, a)
    ensures ComposedSetAt(a, OutcomesOf(in_))
         == if IsScored(in_, a) && Named(a) then Some(SensorSet(a, OutcomeOf(in_, a).sensors, 0)) else None
  {
    AcceptedAnchorsAre(in_);
    ClassIs(in_, a);
    hide OutcomeOf, IsScored, IsAccepted, Anchors;
  }

  /** The IDs that one of the lists of gaps holds, given what classes it is for. */
  lemma {:induction false} RouteIdsOfClass(in_: Inputs, f: GraphAnchor -> Option<Id>, held: bool)
    returns (anchors: seq<GraphAnchor>)
    requires in_.windowStart < in_.windowEnd
    requires forall a :: a in Anchors(in_) ==>
               var o := OutcomeOf(in_, a);
               f(a) == if a.routeId != "" && (o.Is(Invalid) || (held && o.Is(Hold))) then Some(a.routeId) else None
    ensures InOrder(anchors)
    ensures forall a :: a in anchors <==> (IsInvalid(in_, a) || (held && IsHeld(in_, a))) && a.routeId != ""
    ensures FilterMap(Anchors(in_), f) == Map(anchors, (a: GraphAnchor) => a.routeId)
  {
    var picked := (a: GraphAnchor) => (IsInvalid(in_, a) || (held && IsHeld(in_, a))) && a.routeId != "";
    AcceptedAnchorsAre(in_);
    forall a | IsAccepted(in_, a)
      ensures f(a) == if picked(a) then Some(a.routeId) else None
    {
      ClassIs(in_, a);
      hide OutcomeOf, IsInvalid, IsHeld, IsAccepted, Anchors;
    }
    forall a {
      OneClass(in_, a);
    }
    hide OutcomeOf, IsInvalid, IsHeld, IsAccepted, Anchors, InOrder;
    anchors := PickAnchors(in_, f, picked, (a: GraphAnchor) => a.routeId);
  }

  lemma {:induction false} PointIdsOfClass(in_: Inputs, f: GraphAnchor -> Option<Id>, held: bool)
    returns (anchors: seq<GraphAnchor>)
    requires in_.windowStart < in_.windowEnd
    requires forall a :: a in Anchors(in_) ==>
               var o := OutcomeOf(in_, a);
               f(a) == if a.routeId == "" && a.pointId != "" && (o.Is(Invalid) || (held && o.Is(Hold)))
                       then Some(a.pointId) else None
    ensures InOrder(anchors)
    ensures forall a :: a in anchors <==>
              (IsInvalid(in_, a) || (held && IsHeld(in_, a))) && a.routeId == "" && a.pointId != ""
    ensures FilterMap(Anchors(in_), f) == Map(anchors, (a: GraphAnchor) => a.pointId)
  {
    var picked := (a: GraphAnchor) =>
      (IsInvalid(in_, a) || (held && IsHeld(in_, a))) && a.routeId == "" && a.pointId != "";
    AcceptedAnchorsAre(in_);
    forall a | IsAccepted(in_, a)
      ensures f(a) == if picked(a) then Some(a.pointId) else None
    {
      ClassIs(in_, a);
      hide OutcomeOf, IsInvalid, IsHeld, IsAccepted, Anchors;
    }
    forall a {
      OneClass(in_, a);
    }
    hide OutcomeOf, IsInvalid, IsHeld, IsAccepted, Anchors, InOrder;
    anchors := PickAnchors(in_, f, picked, (a: GraphAnchor) => a.pointId);
  }

  /** The routes that have cameras and nothing to score by. */
  lemma {:induction false} InvalidRoutesAre(id: Id, in_: Inputs) returns (invalid: seq<GraphAnchor>)
    requires in_.windowStart < in_.windowEnd && SnapshotOf(id, in_).Composed?
    ensures InOrder(invalid) && forall a :: a in invalid <==> IsInvalid(in_, a) && a.routeId != ""
    ensures SnapshotOf(id, in_).gaps.invalidRouteIds == Map(invalid, (a: GraphAnchor) => a.routeId)
  {
    var outcomes := OutcomesOf(in_);
    invalid := RouteIdsOfClass(in_, (a: GraphAnchor) =>
      if a in outcomes && a.routeId != "" && outcomes[a].Is(Invalid) then Some(a.routeId) else None, false);
    GapsAreOfAnchors(id, in_);
    hide SnapshotOf, IsInvalid, IsHeld, InOrder, OutcomeOf, Anchors;
  }

  lemma {:induction false} InvalidPointsAre(id: Id, in_: Inputs) returns (invalid: seq<GraphAnchor>)
    requires in_.windowStart < in_.windowEnd && SnapshotOf(id, in_).Composed?
    ensures InOrder(invalid)
    ensures forall a :: a in invalid <==> IsInvalid(in_, a) && a.routeId == "" && a.pointId != ""
    ensures SnapshotOf(id, in_).gaps.invalidPointIds == Map(invalid, (a: GraphAnchor) => a.pointId)
  {
    var outcomes := OutcomesOf(in_);
    invalid := PointIdsOfClass(in_, (a: GraphAnchor) =>
      if a in outcomes && a.routeId == "" && a.pointId != "" && outcomes[a].Is(Invalid)
      then Some(a.pointId) else None, false);
    GapsAreOfAnchors(id, in_);
    hide SnapshotOf, IsInvalid, IsHeld, InOrder, OutcomeOf, Anchors;
  }

  /** The routes that the snapshot has no score of: invalid or only held. */
  lemma {:induction false} MissingRoutesAre(id: Id, in_: Inputs) returns (missing: seq<GraphAnchor>)
    requires in_.windowStart < in_.windowEnd && SnapshotOf(id, in_).Composed?
    ensures InOrder(missing)
    ensures forall a :: a in missing <==> (IsInvalid(in_, a) || IsHeld(in_, a)) && a.routeId != ""
    ensures SnapshotOf(id, in_).snapshot.missing.routeIds == Map(missing, (a: GraphAnchor) => a.routeId)
  {
    var outcomes := OutcomesOf(in_);
    missing := RouteIdsOfClass(in_, (a: GraphAnchor) =>
      if a in outcomes && a.routeId != "" && !outcomes[a].Is(OK) then Some(a.routeId) else None, true);
    GapsAreOfAnchors(id, in_);
    hide SnapshotOf, IsInvalid, IsHeld, InOrder, OutcomeOf, Anchors;
  }

  lemma {:induction false} MissingPointsAre(id: Id, in_: Inputs) returns (missing: seq<GraphAnchor>)
    requires in_.windowStart < in_.windowEnd && SnapshotOf(id, in_).Composed?
    ensures InOrder(missing)
    ensures forall a :: a in missing <==>
              (IsInvalid(in_, a) || IsHeld(in_, a)) && a.routeId == "" && a.pointId != ""
    ensures SnapshotOf(id, in_).snapshot.missing.pointIds == Map(missing, (a: GraphAnchor) => a.pointId)
  {
    var outcomes := OutcomesOf(in_);
    missing := PointIdsOfClass(in_, (a: GraphAnchor) =>
      if a in outcomes && a.routeId == "" && a.pointId != "" && !outcomes[a].Is(OK)
      then Some(a.pointId) else None, true);
    GapsAreOfAnchors(id, in_);
    hide SnapshotOf, IsInvalid, IsHeld, InOrder, OutcomeOf, Anchors;
  }

  lemma {:induction false} GapsAreOfAnchors(id: Id, in_: Inputs)
    requires in_.windowStart < in_.windowEnd && SnapshotOf(id, in_).Composed?
    ensures var r, anchors, outcomes := SnapshotOf(id, in_), Anchors(in_), OutcomesOf(in_);
      && r.gaps.invalidRouteIds == InvalidRoutes(anchors, outcomes)
      && r.gaps.invalidPointIds == InvalidPoints(anchors, outcomes)
      && r.snapshot.missing.routeIds == MissingRoutes(anchors, outcomes)
      && r.snapshot.missing.pointIds == MissingPoints(anchors, outcomes)
  {
    hide HasUndefined, Panics, PointsAt, RoutesAt, InvalidRoutes, InvalidPoints, MissingRoutes, MissingPoints,
      ComposedSets, Resolutions, OutcomesOf, Anchors;
  }

  /** How long the window of the latest measurement is that stands for the point. */
  ghost function Span(in_: Inputs, p: Id): Duration {
    match Latest(in_, p)
    case Some(x) => x.windowEnd - x.windowStart
    case None => 0
  }

  /** The accepted points of the anchor. */
  ghost predicate IsPointOf(in_: Inputs, a: GraphAnchor, p: Id) {
    exists m :: m in in_.mappings && AcceptedAt(in_, a, m) && m.pointId == p
  }

  lemma {:induction false} ResolutionIs(in_: Inputs, a: GraphAnchor)
    requires in_.windowStart < in_.windowEnd
    ensures var r := OutcomeOf(in_, a).resolution;
      && r >= 0 && (forall p :: IsPointOf(in_, a, p) ==> Span(in_, p) <= r)
      && (r > 0 ==> exists p :: IsPointOf(in_, a, p) && Span(in_, p) == r)
  {
    var group := AnchorGroup(in_, in_.mappings, a);
    var f := (m: ObservationPointMapping) => ResolutionOf(in_, m);
    GroupIs(in_, a);
    forall m {
      SpanIs(in_, m);
    }
    FilterMapMembers(group, f);
    LongestOfGroup(in_, a);
    hide AnchorGroup, Latest, AcceptedAt, FilterMap, ResolutionOf, OutcomeOf;
    LongestSpan(in_, a, group, FilterMap(group, f), f);
  }

  lemma {:induction false} SpanIs(in_: Inputs, m: ObservationPointMapping)
    ensures ResolutionOf(in_, m) == if Latest(in_, m.pointId).Some? then Some(Span(in_, m.pointId)) else None
  {
    ValueIs(in_, m.pointId);
    hide PointValueOf, Latest;
  }

  lemma {:induction false} LongestOfGroup(in_: Inputs, a: GraphAnchor)
    requires in_.windowStart < in_.windowEnd
    ensures OutcomeOf(in_, a).resolution
         == Longest(FilterMap(AnchorGroup(in_, in_.mappings, a), (m: ObservationPointMapping) => ResolutionOf(in_, m)))
  {
  }

  lemma {:induction false} LongestSpan(in_: Inputs, a: GraphAnchor, group: seq<ObservationPointMapping>,
      spans: seq<Duration>, f: ObservationPointMapping -> Option<Duration>)
    requires forall m :: m in group <==> m in in_.mappings && AcceptedAt(in_, a, m)
    requires forall m :: f(m) == if Latest(in_, m.pointId).Some? then Some(Span(in_, m.pointId)) else None
    requires forall u :: u in spans ==> exists i :: 0 <= i < |group| && f(group[i]) == Some(u)
    requires forall i :: 0 <= i < |group| && f(group[i]).Some? ==> f(group[i]).value in spans
    ensures forall p :: IsPointOf(in_, a, p) ==> Span(in_, p) <= Longest(spans)
    ensures Longest(spans) > 0 ==> exists p :: IsPointOf(in_, a, p) && Span(in_, p) == Longest(spans)
  {
    hide Latest, AcceptedAt;
    var r := Longest(spans);
    forall p | IsPointOf(in_, a, p)
      ensures Span(in_, p) <= r
    {
      var m :| m in in_.mappings && AcceptedAt(in_, a, m) && m.pointId == p;
      assert m in group;
      var i :| 0 <= i < |group| && group[i] == m;
    }
    if r > 0 {
      assert r in spans;
      var i :| 0 <= i < |group| && f(group[i]) == Some(r);
      assert group[i] in group;
      assert IsPointOf(in_, a, group[i].pointId);
    }
  }

  /** The resolution of an anchor is the longest window of a latest measurement at its points. */
  lemma {:induction false} ResolutionsAre(id: Id, in_: Inputs, a: GraphAnchor)
    requires in_.windowStart < in_.windowEnd && SnapshotOf(id, in_).Composed?
    ensures var resolutions := SnapshotOf(id, in_).snapshot.resolutions;
      && (a in resolutions <==> exists p :: IsPointOf(in_, a, p) && Span(in_, p) > 0)
      && (a in resolutions ==>
            && (forall p :: IsPointOf(in_, a, p) ==> Span(in_, p) <= resolutions[a])
            && (exists p :: IsPointOf(in_, a, p) && Span(in_, p) == resolutions[a]))
  {
    ResolutionIs(in_, a);
    AcceptedAnchorsAre(in_);
    if p :| IsPointOf(in_, a, p) {
      assert IsAccepted(in_, a);
    }
    hide OutcomeOf, IsAccepted, IsPointOf, Anchors, Span, HasUndefined, Panics, PointsAt, RoutesAt, InvalidPoints,
      InvalidRoutes, MissingPoints, MissingRoutes, ComposedSets;
  }

  /** The snapshot has the ID and the window it was asked for. */
  lemma {:induction false} WindowIs(id: Id, in_: Inputs)
    requires in_.windowStart < in_.windowEnd && SnapshotOf(id, in_).Composed?
    ensures var s := SnapshotOf(id, in_).snapshot;
      s.id == id && s.windowStart == in_.windowStart && s.windowEnd == in_.windowEnd
  {
  }

  /** Without QR locations, the forward rate is what comes in per minute and the backward rate what
      goes out, each averaged over the cameras: times their number, they are the sums. */
  lemma {:induction false} RatesAddUp(in_: Inputs, a: GraphAnchor)
    requires in_.windowStart < in_.windowEnd && |QrLocations(in_, a)| == 0 && |ScoredCameras(in_, a)| > 0
    ensures var r, n := RouteScoreOf(in_, a), |ScoredCameras(in_, a)| as real;
      && Times(r.forward, n) == Sum(Map(ScoredCameras(in_, a), p => RateIn(in_, p)))
      && Times(r.backward, n) == Sum(Map(ScoredCameras(in_, a), p => RateOut(in_, p)))
  {
    AverageTimes(Map(ScoredCameras(in_, a), p => RateIn(in_, p)));
    AverageTimes(Map(ScoredCameras(in_, a), p => RateOut(in_, p)));
    hide ScoredCameras, QrLocations, PeopleOf, OnePoint;
  }

  lemma {:induction false} AverageTimes(values: seq<real>)
    requires |values| > 0
    ensures Times(Average(values), |values| as real) == Sum(values)
  {
  }

  /** With one camera alone, forward and backward give back the counts of its latest measurement. */
  lemma {:induction false} OneCameraGivesCounts(id: Id, in_: Inputs, a: GraphAnchor, p: Id, x: Measurement)
    requires in_.windowStart < in_.windowEnd && SnapshotOf(id, in_).Composed?
    requires a.routeId != "" && |QrLocations(in_, a)| == 0 && FreshCameras(in_, a) == [p]
    requires Latest(in_, p) == Some(x) && x.windowStart < x.windowEnd
    ensures exists r :: r in SnapshotOf(id, in_).snapshot.routeScores && r.routeId == a.routeId && GivesCounts(r, x)
  {
    var scored, _ := RouteScoresAre(id, in_);
    CamerasAreFilmed(in_, a);
    OneCameraRates(in_, a, p, x);
    assert a in scored;
    hide SnapshotOf, IsScored, IsHeld, Latest, FreshCameras, QrLocations, RouteScoreOf, GivesCounts;
    var i :| 0 <= i < |scored| && scored[i] == a;
    assert SnapshotOf(id, in_).snapshot.routeScores[i] == RouteScoreOf(in_, a);
  }

  predicate GivesCounts(r: RouteScore, x: Measurement) {
    && Times(r.forward, Minutes(x.windowEnd - x.windowStart)) == x.countIn as real
    && Times(r.backward, Minutes(x.windowEnd - x.windowStart)) == x.countOut as real
  }

  lemma {:induction false} OneCameraRates(in_: Inputs, a: GraphAnchor, p: Id, x: Measurement)
    requires in_.windowStart < in_.windowEnd && |QrLocations(in_, a)| == 0 && FreshCameras(in_, a) == [p]
    requires Latest(in_, p) == Some(x) && x.windowStart < x.windowEnd
    ensures GivesCounts(RouteScoreOf(in_, a), x) && RouteScoreOf(in_, a).routeId == a.routeId
  {
    AverageOfOne(Map([p], q => RateIn(in_, q)));
    AverageOfOne(Map([p], q => RateOut(in_, q)));
    hide Latest, FreshCameras, QrLocations, Average, PeopleOf, OnePoint;
    DividedBack(x.countIn, Minutes(x.windowEnd - x.windowStart));
    DividedBack(x.countOut, Minutes(x.windowEnd - x.windowStart));
  }

  lemma {:induction false} AverageOfOne(values: seq<real>)
    requires |values| == 1
    ensures Average(values) == values[0]
  {
    assert values == [] + [values[0]];
    SumOneMore([], values[0]);
    assert |values| as real == 1.0;
  }
}
