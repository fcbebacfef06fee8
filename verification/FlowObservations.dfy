/** The observations of a cycle as the optimiser receives them. */
module FlowObservations {
  import opened Basics
  import opened Seqs
  import opened Sorting
  import opened Domain
  import opened Snapshots
  import opened SnapshotClasses
  import opened SnapshotReference
  import opened SnapshotScores

  datatype ConfidenceFlag = FlagOk | FlagHold | FlagInvalid

  datatype Direction = AToB | BToA

  datatype ArcFlow = ArcFlow(edgeId: Id, direction: Direction, rate: real, flag: ConfidenceFlag)

  datatype ArcStagnation = ArcStagnation(edgeId: Id, stagnation: real, sameSensorFlow: bool, flag: ConfidenceFlag)

  datatype NodeOccupancy = NodeOccupancy(nodeId: Id, occupancy: Option<real>, delta: Option<real>, flag: ConfidenceFlag)

  function Pair(e: Id, forward: real, backward: real, flag: ConfidenceFlag): seq<ArcFlow> {
    [ArcFlow(e, AToB, forward, flag), ArcFlow(e, BToA, backward, flag)]
  }

  /** What one route score contributes; routes that are not exhaustive contribute nothing. */
  function FlowsOf(s: RouteScore, flag: ConfidenceFlag, edgeIds: set<Id>): seq<ArcFlow> {
    if s.routeId in edgeIds && s.exhaustive then Pair(s.routeId, s.forward, s.backward, flag) else []
  }

  function StagnationsOf(s: RouteScore, flag: ConfidenceFlag, edgeIds: set<Id>): seq<ArcStagnation> {
    if s.routeId in edgeIds && s.exhaustive && s.stagnationScore.Some?
    then [ArcStagnation(s.routeId, s.stagnationScore.value, s.sameSensorFlow, flag)] else []
  }

  /** A held point has no current trend. */
  function OccupanciesOf(s: PointScore, flag: ConfidenceFlag, nodeIds: set<Id>): seq<NodeOccupancy> {
    if s.pointId in nodeIds && s.exhaustive
    then [NodeOccupancy(s.pointId, s.peopleScore, if flag.FlagHold? then None else s.occupancyDelta, flag)] else []
  }

  function InvalidRoute(id: Id): RouteScore {
    RouteScore(id, 0.0, 0.0, None, None, true, false)
  }

  function InvalidPoint(id: Id): PointScore {
    PointScore(id, None, None, true)
  }

  function InvalidRouteScores(ids: seq<Id>): seq<RouteScore> {
    Map(ids, InvalidRoute)
  }

  function InvalidPointScores(ids: seq<Id>): seq<PointScore> {
    Map(ids, InvalidPoint)
  }

  function FlowsIn(scores: seq<RouteScore>, flag: ConfidenceFlag, edgeIds: set<Id>): seq<ArcFlow> {
    FlatMap(scores, (s: RouteScore) => FlowsOf(s, flag, edgeIds))
  }

  function StagnationsIn(scores: seq<RouteScore>, flag: ConfidenceFlag, edgeIds: set<Id>): seq<ArcStagnation> {
    FlatMap(scores, (s: RouteScore) => StagnationsOf(s, flag, edgeIds))
  }

  function OccupanciesIn(scores: seq<PointScore>, flag: ConfidenceFlag, nodeIds: set<Id>): seq<NodeOccupancy> {
    FlatMap(scores, (s: PointScore) => OccupanciesOf(s, flag, nodeIds))
  }

  function ArcFlowsOf(s: Snapshot, g: Gaps, edgeIds: set<Id>): seq<ArcFlow> {
    FlowsIn(s.routeScores, FlagOk, edgeIds) + FlowsIn(g.heldRouteScores, FlagHold, edgeIds)
      + FlowsIn(InvalidRouteScores(g.invalidRouteIds), FlagInvalid, edgeIds)
  }

  function ArcStagnationsOf(s: Snapshot, g: Gaps, edgeIds: set<Id>): seq<ArcStagnation> {
    StagnationsIn(s.routeScores, FlagOk, edgeIds) + StagnationsIn(g.heldRouteScores, FlagHold, edgeIds)
      + StagnationsIn(InvalidRouteScores(g.invalidRouteIds), FlagInvalid, edgeIds)
  }

  function NodeOccupanciesOf(s: Snapshot, g: Gaps, nodeIds: set<Id>): seq<NodeOccupancy> {
    OccupanciesIn(s.pointScores, FlagOk, nodeIds) + OccupanciesIn(g.heldPointScores, FlagHold, nodeIds)
      + OccupanciesIn(InvalidPointScores(g.invalidPointIds), FlagInvalid, nodeIds)
  }

  /** The message that observations are appended to. */
  class Observations {
    var arcFlows: seq<ArcFlow>
    var arcStagnations: seq<ArcStagnation>
    var nodeOccupancies: seq<NodeOccupancy>

    constructor ()
      ensures arcFlows == [] && arcStagnations == [] && nodeOccupancies == []
    {
      arcFlows, arcStagnations, nodeOccupancies := [], [], [];
    }

    method AppendArcObservations(score: RouteScore, flag: ConfidenceFlag)
      modifies this
      ensures arcFlows == old(arcFlows) + [ArcFlow(score.routeId, AToB, score.forward, flag),
                                           ArcFlow(score.routeId, BToA, score.backward, flag)]
      ensures arcStagnations == old(arcStagnations)
           + (if score.stagnationScore.Some?
              then [ArcStagnation(score.routeId, score.stagnationScore.value, score.sameSensorFlow, flag)] else [])
      ensures nodeOccupancies == old(nodeOccupancies)
    {
      arcFlows := arcFlows + [ArcFlow(score.routeId, AToB, score.forward, flag),
                              ArcFlow(score.routeId, BToA, score.backward, flag)];
      if score.stagnationScore.Some? {
        arcStagnations := arcStagnations + [ArcStagnation(score.routeId, score.stagnationScore.value,
                                                          score.sameSensorFlow, flag)];
      }
    }

    method AddRoutes(scores: seq<RouteScore>, flag: ConfidenceFlag, edgeIds: set<Id>)
      modifies this
      ensures arcFlows == old(arcFlows) + FlowsIn(scores, flag, edgeIds)
      ensures arcStagnations == old(arcStagnations) + StagnationsIn(scores, flag, edgeIds)
      ensures nodeOccupancies == old(nodeOccupancies)
    {
      for i := 0 to |scores|
        invariant arcFlows == old(arcFlows) + FlowsIn(scores[..i], flag, edgeIds)
        invariant arcStagnations == old(arcStagnations) + StagnationsIn(scores[..i], flag, edgeIds)
        invariant nodeOccupancies == old(nodeOccupancies)
      {
        assert scores[..i + 1][..i] == scores[..i];
        if scores[i].routeId in edgeIds && scores[i].exhaustive {
          AppendArcObservations(scores[i], flag);
        }
      }
      assert scores[..|scores|] == scores;
    }

    method AddPoints(scores: seq<PointScore>, flag: ConfidenceFlag, nodeIds: set<Id>)
      modifies this
      ensures nodeOccupancies == old(nodeOccupancies) + OccupanciesIn(scores, flag, nodeIds)
      ensures arcFlows == old(arcFlows) && arcStagnations == old(arcStagnations)
    {
      for i := 0 to |scores|
        invariant nodeOccupancies == old(nodeOccupancies) + OccupanciesIn(scores[..i], flag, nodeIds)
        invariant arcFlows == old(arcFlows) && arcStagnations == old(arcStagnations)
      {
        assert scores[..i + 1][..i] == scores[..i];
        if scores[i].pointId in nodeIds && scores[i].exhaustive {
          var delta := if flag.FlagHold? then None else scores[i].occupancyDelta;
          nodeOccupancies := nodeOccupancies + [NodeOccupancy(scores[i].pointId, scores[i].peopleScore, delta, flag)];
        }
      }
      assert scores[..|scores|] == scores;
    }
  }

  method FlowObservations(snapshot: Snapshot, gaps: Gaps, nodeIds: set<Id>, edgeIds: set<Id>) returns (o: Observations)
    ensures fresh(o)
    ensures o.arcFlows == ArcFlowsOf(snapshot, gaps, edgeIds)
    ensures o.arcStagnations == ArcStagnationsOf(snapshot, gaps, edgeIds)
    ensures o.nodeOccupancies == NodeOccupanciesOf(snapshot, gaps, nodeIds)
    ensures o.arcFlows == FlowsIn(snapshot.routeScores, FlagOk, edgeIds)
                          + FlowsIn(gaps.heldRouteScores, FlagHold, edgeIds)
                          + FlowsIn(Map(gaps.invalidRouteIds, InvalidRoute), FlagInvalid, edgeIds)
    ensures o.arcStagnations == StagnationsIn(snapshot.routeScores, FlagOk, edgeIds)
                                + StagnationsIn(gaps.heldRouteScores, FlagHold, edgeIds)
    ensures o.nodeOccupancies == OccupanciesIn(snapshot.pointScores, FlagOk, nodeIds)
                                 + OccupanciesIn(gaps.heldPointScores, FlagHold, nodeIds)
                                 + OccupanciesIn(Map(gaps.invalidPointIds, InvalidPoint), FlagInvalid, nodeIds)
  {
    NoInvalidStagnations(gaps.invalidRouteIds, edgeIds);
    hide FlowsIn, StagnationsIn, OccupanciesIn;
    o := new Observations();
    o.AddRoutes(snapshot.routeScores, FlagOk, edgeIds);
    o.AddRoutes(gaps.heldRouteScores, FlagHold, edgeIds);
    o.AddRoutes(InvalidRouteScores(gaps.invalidRouteIds), FlagInvalid, edgeIds);
    o.AddPoints(snapshot.pointScores, FlagOk, nodeIds);
    o.AddPoints(gaps.heldPointScores, FlagHold, nodeIds);
    o.AddPoints(InvalidPointScores(gaps.invalidPointIds), FlagInvalid, nodeIds);
  }

  /** The messages about one element, in order. */
  function About<M>(messages: seq<M>, key: M -> Id, e: Id): seq<M> {
    if |messages| == 0 then []
    else About(messages[..|messages| - 1], key, e)
         + (if key(messages[|messages| - 1]) == e then [messages[|messages| - 1]] else [])
  }

  lemma {:induction false} AboutConcat<M>(a: seq<M>, b: seq<M>, key: M -> Id, e: Id)
    ensures About(a + b, key, e) == About(a, key, e) + About(b, key, e)
  {
    if |b| == 0 {
      assert a + b == a;
    } else {
      assert (a + b)[..|a + b| - 1] == a + b[..|b| - 1];
      AboutConcat(a, b[..|b| - 1], key, e);
    }
  }

  lemma {:induction false} AboutAll<M>(messages: seq<M>, key: M -> Id, e: Id, f: Id)
    requires forall i :: 0 <= i < |messages| ==> key(messages[i]) == f
    ensures About(messages, key, e) == if e == f then messages else []
  {
    if |messages| > 0 {
      AboutAll(messages[..|messages| - 1], key, e, f);
    }
  }

  ghost predicate KeyedBy<T(!new), M>(f: T -> seq<M>, id: T -> Id, key: M -> Id) {
    forall t, i :: 0 <= i < |f(t)| ==> key(f(t)[i]) == id(t)
  }

  /** A list whose elements have other IDs contributes nothing about an element. */
  lemma {:induction false} NothingAbout<T(!new), M>(s: seq<T>, f: T -> seq<M>, id: T -> Id, key: M -> Id, e: Id)
    requires KeyedBy(f, id, key) && forall i :: 0 <= i < |s| ==> id(s[i]) != e
    ensures About(FlatMap(s, f), key, e) == []
  {
    if |s| > 0 {
      NothingAbout(s[..|s| - 1], f, id, key, e);
      AboutConcat(FlatMap(s[..|s| - 1], f), f(s[|s| - 1]), key, e);
      AboutAll(f(s[|s| - 1]), key, e, id(s[|s| - 1]));
    }
  }

  /** A list with distinct IDs contributes about an element just what its one entry does. */
  lemma {:induction false} AboutOne<T(!new), M>(s: seq<T>, f: T -> seq<M>, id: T -> Id, key: M -> Id, k: int)
    requires KeyedBy(f, id, key) && 0 <= k < |s| && forall i :: 0 <= i < |s| && i != k ==> id(s[i]) != id(s[k])
    ensures About(FlatMap(s, f), key, id(s[k])) == f(s[k])
  {
    var rest, l := s[..|s| - 1], s[|s| - 1];
    AboutConcat(FlatMap(rest, f), f(l), key, id(s[k]));
    AboutAll(f(l), key, id(s[k]), id(l));
    if k == |s| - 1 {
      NothingAbout(rest, f, id, key, id(l));
    } else {
      AboutOne(rest, f, id, key, k);
      assert rest[k] == s[k];
    }
  }

  function EdgeOf(m: ArcFlow): Id {
    m.edgeId
  }

  function NodeOf(m: NodeOccupancy): Id {
    m.nodeId
  }

  function RouteOf(s: RouteScore): Id {
    s.routeId
  }

  function PlaceOf(s: PointScore): Id {
    s.pointId
  }

  function FlagOf(c: Confidence): ConfidenceFlag {
    match c
    case OK => FlagOk
    case Hold => FlagHold
    case Invalid => FlagInvalid
  }

  /** How the scores of the anchor are flagged. */
  ghost function FlagAt(in_: Inputs, a: GraphAnchor): ConfidenceFlag {
    if IsInvalid(in_, a) then FlagInvalid else if IsHeld(in_, a) then FlagHold else FlagOk
  }

  /** What an edge should get: nothing when it is not an accepted route of the graph, or when QR
      locations observe it; otherwise one pair of flows, flagged as the route is classified. */
  ghost function ExpectedFlows(in_: Inputs, edgeIds: set<Id>, e: Id): seq<ArcFlow>
    requires in_.windowStart < in_.windowEnd
  {
    var a := RouteAnchor(e);
    if e !in edgeIds || e == "" || !IsAccepted(in_, a) then []
    else if IsInvalid(in_, a) then [ArcFlow(e, AToB, 0.0, FlagInvalid), ArcFlow(e, BToA, 0.0, FlagInvalid)]
    else if |QrLocations(in_, a)| > 0 then []
    else [ArcFlow(e, AToB, ForwardOf(in_, a), FlagAt(in_, a)), ArcFlow(e, BToA, BackwardOf(in_, a), FlagAt(in_, a))]
  }

  /** The same of its outcome. */
  function PairFor(o: AnchorOutcome, e: Id): seq<ArcFlow> {
    if o.Is(Invalid) then Pair(e, 0.0, 0.0, FlagInvalid)
    else if o.qr then []
    else Pair(e, o.composed.rateIn, o.composed.rateOut, FlagOf(o.composed.confidence))
  }

  /** What a node should get: nothing when it is not accepted or QR locations observe it; otherwise one
      occupancy, which has no trend when the people are only held, and says nothing when it is invalid. */
  ghost function ExpectedOccupancies(in_: Inputs, nodeIds: set<Id>, n: Id): seq<NodeOccupancy>
    requires in_.windowStart < in_.windowEnd
  {
    var a := PointAnchor(n);
    if n !in nodeIds || n == "" || !IsAccepted(in_, a) then []
    else if IsInvalid(in_, a) then [NodeOccupancy(n, None, None, FlagInvalid)]
    else if |QrLocations(in_, a)| > 0 then []
    else [NodeOccupancy(n, PeopleOf(in_, a), if IsHeld(in_, a) then None else DeltaOf(in_, a), FlagAt(in_, a))]
  }

  function OccupancyFor(o: AnchorOutcome, n: Id): seq<NodeOccupancy> {
    if o.Is(Invalid) then [NodeOccupancy(n, None, None, FlagInvalid)]
    else if o.qr then []
    else [NodeOccupancy(n, o.composed.detected, if o.Is(Hold) then None else o.composed.occupancyDelta,
                        FlagOf(o.composed.confidence))]
  }

  /** Anchors that each name one element, in order, with their outcomes. */
  ghost predicate Classified(anchors: seq<GraphAnchor>, outcomes: map<GraphAnchor, AnchorOutcome>) {
    StrictlySorted(anchors, AnchorBefore) && forall a :: a in anchors ==> Exclusive(a) && a in outcomes
  }

  lemma {:induction false} SortedIsDistinct(ids: seq<Id>, i: int, j: int)
    requires StrictlySorted(ids, Before) && 0 <= i < |ids| && 0 <= j < |ids| && i != j
    ensures ids[i] != ids[j]
  {
    BeforeIrreflexive(ids[i]);
    assert if i < j then Before(ids[i], ids[j]) else Before(ids[j], ids[i]);
  }

  /** Messages of a list of scores whose IDs are sorted, about one element. */
  lemma {:induction false} AboutSorted<T(!new), M>(s: seq<T>, f: T -> seq<M>, id: T -> Id, key: M -> Id,
      ids: seq<Id>, e: Id)
    requires KeyedBy(f, id, key) && StrictlySorted(ids, Before)
    requires |ids| == |s| && forall i :: 0 <= i < |s| ==> ids[i] == id(s[i])
    ensures e !in ids ==> About(FlatMap(s, f), key, e) == []
    ensures forall k :: 0 <= k < |s| && ids[k] == e ==> About(FlatMap(s, f), key, e) == f(s[k])
  {
    if e in ids {
      forall k | 0 <= k < |s| && ids[k] == e
        ensures About(FlatMap(s, f), key, e) == f(s[k])
      {
        forall i | 0 <= i < |s| && i != k
          ensures id(s[i]) != id(s[k])
        {
          SortedIsDistinct(ids, i, k);
        }
        AboutOne(s, f, id, key, k);
      }
    } else {
      NothingAbout(s, f, id, key, e);
    }
  }

  lemma {:induction false} RouteScoreAt(anchors: seq<GraphAnchor>, outcomes: map<GraphAnchor, AnchorOutcome>,
      level: Confidence, k: int)
    requires Classified(anchors, outcomes) && 0 <= k < |RoutesAt(anchors, outcomes, level)|
    ensures var s := RoutesAt(anchors, outcomes, level)[k];
      RouteAnchor(s.routeId) in outcomes && s == outcomes[RouteAnchor(s.routeId)].Route(s.routeId)
  {
    var s := RoutesAt(anchors, outcomes, level)[k];
    FilterMapMembers(anchors, (a: GraphAnchor) =>
      if a in outcomes && a.routeId != "" && outcomes[a].Is(level) then Some(outcomes[a].Route(a.routeId)) else None);
    assert s in RoutesAt(anchors, outcomes, level);
    var i :| 0 <= i < |anchors| && anchors[i] in outcomes && anchors[i].routeId != "" && outcomes[anchors[i]].Is(level)
      && outcomes[anchors[i]].Route(anchors[i].routeId) == s;
    assert anchors[i] in anchors;
    assert anchors[i] == RouteAnchor(s.routeId);
  }

  lemma {:induction false} PointScoreAt(anchors: seq<GraphAnchor>, outcomes: map<GraphAnchor, AnchorOutcome>,
      level: Confidence, k: int)
    requires Classified(anchors, outcomes) && 0 <= k < |PointsAt(anchors, outcomes, level)|
    ensures var s := PointsAt(anchors, outcomes, level)[k];
      PointAnchor(s.pointId) in outcomes && s == outcomes[PointAnchor(s.pointId)].Point(s.pointId)
  {
    var s := PointsAt(anchors, outcomes, level)[k];
    FilterMapMembers(anchors, (a: GraphAnchor) =>
      if a in outcomes && a.routeId == "" && a.pointId != "" && outcomes[a].Is(level)
      then Some(outcomes[a].Point(a.pointId)) else None);
    assert s in PointsAt(anchors, outcomes, level);
    var i :| 0 <= i < |anchors| && anchors[i] in outcomes && anchors[i].routeId == "" && anchors[i].pointId != ""
      && outcomes[anchors[i]].Is(level)
      && outcomes[anchors[i]].Point(anchors[i].pointId) == s;
    assert anchors[i] == PointAnchor(s.pointId);
  }

  lemma {:induction false} FlowsAbout(anchors: seq<GraphAnchor>, outcomes: map<GraphAnchor, AnchorOutcome>,
      level: Confidence, flag: ConfidenceFlag,
                   edgeIds: set<Id>, e: Id)
    requires Classified(anchors, outcomes)
    ensures About(FlowsIn(RoutesAt(anchors, outcomes, level), flag, edgeIds), EdgeOf, e)
         == if IsAt(anchors, outcomes, true, {level}, e)
            then FlowsOf(outcomes[RouteAnchor(e)].Route(e), flag, edgeIds) else []
  {
    var scores, ids := RoutesAt(anchors, outcomes, level), IdsAt(anchors, outcomes, true, {level});
    RoutesById(anchors, outcomes, level);
    ListAt(ids, anchors, outcomes, true, {level}, e);
    AboutSorted(scores, (s: RouteScore) => FlowsOf(s, flag, edgeIds), RouteOf, EdgeOf, ids, e);
    if e in ids {
      var k :| 0 <= k < |ids| && ids[k] == e;
      RouteScoreAt(anchors, outcomes, level, k);
    }
  }

  lemma {:induction false} InvalidFlowsAbout(anchors: seq<GraphAnchor>, outcomes: map<GraphAnchor, AnchorOutcome>,
      edgeIds: set<Id>, e: Id)
    requires Classified(anchors, outcomes)
    ensures About(FlowsIn(InvalidRouteScores(InvalidRoutes(anchors, outcomes)), FlagInvalid, edgeIds), EdgeOf, e)
         == if IsAt(anchors, outcomes, true, {Invalid}, e) then FlowsOf(InvalidRoute(e), FlagInvalid, edgeIds) else []
  {
    var ids := IdsAt(anchors, outcomes, true, {Invalid});
    InvalidById(anchors, outcomes);
    ListAt(ids, anchors, outcomes, true, {Invalid}, e);
    AboutSorted(InvalidRouteScores(ids), (s: RouteScore) => FlowsOf(s, FlagInvalid, edgeIds), RouteOf, EdgeOf, ids, e);
    if e in ids {
      var k :| 0 <= k < |ids| && ids[k] == e;
    }
  }

  lemma {:induction false} OccupanciesAbout(anchors: seq<GraphAnchor>, outcomes: map<GraphAnchor, AnchorOutcome>,
      level: Confidence, flag: ConfidenceFlag,
                         nodeIds: set<Id>, n: Id)
    requires Classified(anchors, outcomes)
    ensures About(OccupanciesIn(PointsAt(anchors, outcomes, level), flag, nodeIds), NodeOf, n)
         == if IsAt(anchors, outcomes, false, {level}, n)
            then OccupanciesOf(outcomes[PointAnchor(n)].Point(n), flag, nodeIds) else []
  {
    var scores, ids := PointsAt(anchors, outcomes, level), IdsAt(anchors, outcomes, false, {level});
    PointsById(anchors, outcomes, level);
    ListAt(ids, anchors, outcomes, false, {level}, n);
    AboutSorted(scores, (s: PointScore) => OccupanciesOf(s, flag, nodeIds), PlaceOf, NodeOf, ids, n);
    if n in ids {
      var k :| 0 <= k < |ids| && ids[k] == n;
      PointScoreAt(anchors, outcomes, level, k);
    }
  }

  lemma {:induction false} InvalidOccupanciesAbout(anchors: seq<GraphAnchor>,
      outcomes: map<GraphAnchor, AnchorOutcome>, nodeIds: set<Id>, n: Id)
    requires Classified(anchors, outcomes)
    ensures About(OccupanciesIn(InvalidPointScores(InvalidPoints(anchors, outcomes)), FlagInvalid, nodeIds), NodeOf, n)
         == if IsAt(anchors, outcomes, false, {Invalid}, n)
            then OccupanciesOf(InvalidPoint(n), FlagInvalid, nodeIds) else []
  {
    var ids := IdsAt(anchors, outcomes, false, {Invalid});
    InvalidById(anchors, outcomes);
    ListAt(ids, anchors, outcomes, false, {Invalid}, n);
    AboutSorted(InvalidPointScores(ids), (s: PointScore) => OccupanciesOf(s, FlagInvalid, nodeIds), PlaceOf, NodeOf,
                ids, n);
    if n in ids {
      var k :| 0 <= k < |ids| && ids[k] == n;
    }
  }

  lemma {:induction false} FlowsOfEdge(anchors: seq<GraphAnchor>, outcomes: map<GraphAnchor, AnchorOutcome>,
      edgeIds: set<Id>, e: Id)
    requires Classified(anchors, outcomes)
    ensures About(FlowsIn(RoutesAt(anchors, outcomes, OK), FlagOk, edgeIds)
                  + FlowsIn(RoutesAt(anchors, outcomes, Hold), FlagHold, edgeIds)
                  + FlowsIn(InvalidRouteScores(InvalidRoutes(anchors, outcomes)), FlagInvalid, edgeIds), EdgeOf, e)
         == if e in edgeIds && e != "" && RouteAnchor(e) in anchors then PairFor(outcomes[RouteAnchor(e)], e) else []
  {
    FlowsAbout(anchors, outcomes, OK, FlagOk, edgeIds, e);
    FlowsAbout(anchors, outcomes, Hold, FlagHold, edgeIds, e);
    InvalidFlowsAbout(anchors, outcomes, edgeIds, e);
    var ok := FlowsIn(RoutesAt(anchors, outcomes, OK), FlagOk, edgeIds);
    var held := FlowsIn(RoutesAt(anchors, outcomes, Hold), FlagHold, edgeIds);
    var invalid := FlowsIn(InvalidRouteScores(InvalidRoutes(anchors, outcomes)), FlagInvalid, edgeIds);
    AboutConcat(ok, held, EdgeOf, e);
    AboutConcat(ok + held, invalid, EdgeOf, e);
    hide FlowsIn, RoutesAt, InvalidRoutes, About, StrictlySorted, FlowsOf, PairFor, InvalidRoute;
    if e != "" && RouteAnchor(e) in anchors {
      FlowsByClass(outcomes[RouteAnchor(e)], edgeIds, e);
    }
  }

  /** Of the three classes only that of the outcome contributes. */
  lemma {:induction false} FlowsByClass(o: AnchorOutcome, edgeIds: set<Id>, e: Id)
    ensures (if o.Is(OK) then FlowsOf(o.Route(e), FlagOk, edgeIds) else [])
            + (if o.Is(Hold) then FlowsOf(o.Route(e), FlagHold, edgeIds) else [])
            + (if o.Is(Invalid) then FlowsOf(InvalidRoute(e), FlagInvalid, edgeIds) else [])
         == if e in edgeIds then PairFor(o, e) else []
  {
  }

  lemma {:induction false} OccupanciesOfNode(anchors: seq<GraphAnchor>, outcomes: map<GraphAnchor, AnchorOutcome>,
      nodeIds: set<Id>, n: Id)
    requires Classified(anchors, outcomes)
    ensures About(OccupanciesIn(PointsAt(anchors, outcomes, OK), FlagOk, nodeIds)
                  + OccupanciesIn(PointsAt(anchors, outcomes, Hold), FlagHold, nodeIds)
                  + OccupanciesIn(InvalidPointScores(InvalidPoints(anchors, outcomes)), FlagInvalid, nodeIds),
                  NodeOf, n)
         == if n in nodeIds && n != "" && PointAnchor(n) in anchors
            then OccupancyFor(outcomes[PointAnchor(n)], n) else []
  {
    OccupanciesAbout(anchors, outcomes, OK, FlagOk, nodeIds, n);
    OccupanciesAbout(anchors, outcomes, Hold, FlagHold, nodeIds, n);
    InvalidOccupanciesAbout(anchors, outcomes, nodeIds, n);
    var ok := OccupanciesIn(PointsAt(anchors, outcomes, OK), FlagOk, nodeIds);
    var held := OccupanciesIn(PointsAt(anchors, outcomes, Hold), FlagHold, nodeIds);
    var invalid := OccupanciesIn(InvalidPointScores(InvalidPoints(anchors, outcomes)), FlagInvalid, nodeIds);
    AboutConcat(ok, held, NodeOf, n);
    AboutConcat(ok + held, invalid, NodeOf, n);
    hide OccupanciesIn, PointsAt, InvalidPoints, About, StrictlySorted, OccupanciesOf, OccupancyFor, InvalidPoint;
    if n != "" && PointAnchor(n) in anchors {
      OccupanciesByClass(outcomes[PointAnchor(n)], nodeIds, n);
    }
  }

  lemma {:induction false} OccupanciesByClass(o: AnchorOutcome, nodeIds: set<Id>, n: Id)
    ensures (if o.Is(OK) then OccupanciesOf(o.Point(n), FlagOk, nodeIds) else [])
            + (if o.Is(Hold) then OccupanciesOf(o.Point(n), FlagHold, nodeIds) else [])
            + (if o.Is(Invalid) then OccupanciesOf(InvalidPoint(n), FlagInvalid, nodeIds) else [])
         == if n in nodeIds then OccupancyFor(o, n) else []
  {
  }

  function StagnationEdge(m: ArcStagnation): Id {
    m.edgeId
  }

  /** The stagnation an edge should get: none when nobody can say how many people are on it. */
  function StagnationFor(o: AnchorOutcome, e: Id): seq<ArcStagnation> {
    if o.Is(Invalid) || o.qr || o.composed.detected == None then []
    else [ArcStagnation(e, o.composed.detected.value, |o.sensors| == 1, FlagOf(o.composed.confidence))]
  }

  ghost function ExpectedStagnations(in_: Inputs, edgeIds: set<Id>, e: Id): seq<ArcStagnation>
    requires in_.windowStart < in_.windowEnd
  {
    var a := RouteAnchor(e);
    if e !in edgeIds || e == "" || !IsAccepted(in_, a) || IsInvalid(in_, a) || |QrLocations(in_, a)| > 0
       || PeopleOf(in_, a) == None then []
    else [ArcStagnation(e, PeopleOf(in_, a).value, OnePoint(in_, a), FlagAt(in_, a))]
  }

  lemma {:induction false} PairIs(in_: Inputs, e: Id)
    requires in_.windowStart < in_.windowEnd && IsAccepted(in_, RouteAnchor(e)) && e != ""
    ensures PairFor(OutcomeOf(in_, RouteAnchor(e)), e) == ExpectedFlows(in_, {e}, e)
  {
    var a := RouteAnchor(e);
    ClassIs(in_, a);
    FlagIs(in_, a);
    QrIs(in_, a);
    if !IsInvalid(in_, a) && |QrLocations(in_, a)| == 0 {
      ComposedIs(in_, a);
      NoQrRate(in_, a);
      hide *;
      assert OutcomeOf(in_, a).composed.rateIn == ForwardOf(in_, a);
    }
    hide OutcomeOf, IsInvalid, IsScored, IsHeld, IsAccepted, QrLocations, ForwardOf, BackwardOf, FlagAt, QrRate;
  }

  lemma {:induction false} FlagIs(in_: Inputs, a: GraphAnchor)
    requires in_.windowStart < in_.windowEnd && IsAccepted(in_, a)
    ensures FlagOf(OutcomeOf(in_, a).composed.confidence) == FlagAt(in_, a)
  {
    ClassIs(in_, a);
    hide OutcomeOf, IsInvalid, IsScored, IsHeld, IsAccepted;
  }

  lemma {:induction false} StagnationIs(in_: Inputs, e: Id)
    requires in_.windowStart < in_.windowEnd && IsAccepted(in_, RouteAnchor(e)) && e != ""
    ensures StagnationFor(OutcomeOf(in_, RouteAnchor(e)), e) == ExpectedStagnations(in_, {e}, e)
  {
    var a := RouteAnchor(e);
    ClassIs(in_, a);
    FlagIs(in_, a);
    QrIs(in_, a);
    OneSensorIs(in_, a);
    if !IsInvalid(in_, a) {
      ComposedIs(in_, a);
    }
    hide OutcomeOf, IsInvalid, IsScored, IsHeld, IsAccepted, QrLocations, PeopleOf, FlagAt, OnePoint;
  }

  lemma {:induction false} OccupancyIs(in_: Inputs, n: Id)
    requires in_.windowStart < in_.windowEnd && IsAccepted(in_, PointAnchor(n)) && n != ""
    ensures OccupancyFor(OutcomeOf(in_, PointAnchor(n)), n) == ExpectedOccupancies(in_, {n}, n)
  {
    var a := PointAnchor(n);
    ClassIs(in_, a);
    FlagIs(in_, a);
    QrIs(in_, a);
    if !IsInvalid(in_, a) {
      ComposedIs(in_, a);
    }
    hide OutcomeOf, IsInvalid, IsScored, IsHeld, IsAccepted, QrLocations, PeopleOf, DeltaOf, FlagAt;
  }

  lemma {:induction false} StagnationsAbout(anchors: seq<GraphAnchor>, outcomes: map<GraphAnchor, AnchorOutcome>,
      level: Confidence, flag: ConfidenceFlag,
                         edgeIds: set<Id>, e: Id)
    requires Classified(anchors, outcomes)
    ensures About(StagnationsIn(RoutesAt(anchors, outcomes, level), flag, edgeIds), StagnationEdge, e)
         == if IsAt(anchors, outcomes, true, {level}, e)
            then StagnationsOf(outcomes[RouteAnchor(e)].Route(e), flag, edgeIds) else []
  {
    var scores, ids := RoutesAt(anchors, outcomes, level), IdsAt(anchors, outcomes, true, {level});
    RoutesById(anchors, outcomes, level);
    ListAt(ids, anchors, outcomes, true, {level}, e);
    AboutSorted(scores, (s: RouteScore) => StagnationsOf(s, flag, edgeIds), RouteOf, StagnationEdge, ids, e);
    if e in ids {
      var k :| 0 <= k < |ids| && ids[k] == e;
      RouteScoreAt(anchors, outcomes, level, k);
    }
  }

  lemma {:induction false} NoInvalidStagnations(ids: seq<Id>, edgeIds: set<Id>)
    ensures StagnationsIn(InvalidRouteScores(ids), FlagInvalid, edgeIds) == []
  {
    if |ids| > 0 {
      NoInvalidStagnations(ids[..|ids| - 1], edgeIds);
      assert InvalidRouteScores(ids)[..|ids| - 1] == InvalidRouteScores(ids[..|ids| - 1]);
    }
  }

  lemma {:induction false} StagnationsOfEdge(anchors: seq<GraphAnchor>, outcomes: map<GraphAnchor, AnchorOutcome>,
      edgeIds: set<Id>, e: Id)
    requires Classified(anchors, outcomes)
    ensures About(StagnationsIn(RoutesAt(anchors, outcomes, OK), FlagOk, edgeIds)
                  + StagnationsIn(RoutesAt(anchors, outcomes, Hold), FlagHold, edgeIds)
                  + StagnationsIn(InvalidRouteScores(InvalidRoutes(anchors, outcomes)), FlagInvalid, edgeIds),
                  StagnationEdge, e)
         == if e in edgeIds && e != "" && RouteAnchor(e) in anchors
            then StagnationFor(outcomes[RouteAnchor(e)], e) else []
  {
    StagnationsAbout(anchors, outcomes, OK, FlagOk, edgeIds, e);
    StagnationsAbout(anchors, outcomes, Hold, FlagHold, edgeIds, e);
    NoInvalidStagnations(InvalidRoutes(anchors, outcomes), edgeIds);
    var ok := StagnationsIn(RoutesAt(anchors, outcomes, OK), FlagOk, edgeIds);
    var held := StagnationsIn(RoutesAt(anchors, outcomes, Hold), FlagHold, edgeIds);
    AboutConcat(ok, held, StagnationEdge, e);
    assert ok + held + [] == ok + held;
    hide StagnationsIn, RoutesAt, InvalidRoutes, About, StrictlySorted, StagnationsOf, StagnationFor;
    if e != "" && RouteAnchor(e) in anchors {
      StagnationsByClass(outcomes[RouteAnchor(e)], edgeIds, e);
    }
  }

  lemma {:induction false} StagnationsByClass(o: AnchorOutcome, edgeIds: set<Id>, e: Id)
    ensures (if o.Is(OK) then StagnationsOf(o.Route(e), FlagOk, edgeIds) else [])
            + (if o.Is(Hold) then StagnationsOf(o.Route(e), FlagHold, edgeIds) else [])
         == if e in edgeIds then StagnationFor(o, e) else []
  {
  }

  /** Of a composed snapshot, each edge of the graph gets exactly what it should. */
  lemma {:induction false} EachEdgeGetsItsPair(id: Id, in_: Inputs, edgeIds: set<Id>, e: Id)
    requires in_.windowStart < in_.windowEnd && ExclusiveAnchors(in_) && SnapshotOf(id, in_).Composed?
    ensures var r := SnapshotOf(id, in_);
      About(ArcFlowsOf(r.snapshot, r.gaps, edgeIds), EdgeOf, e) == ExpectedFlows(in_, edgeIds, e)
  {
    hide About, FlowsIn, OutcomeOf, PairFor;
    AcceptedAnchorsAre(in_);
    FlowsOfEdge(Anchors(in_), OutcomesOf(in_), edgeIds, e);
    if IsAccepted(in_, RouteAnchor(e)) && e != "" {
      PairIs(in_, e);
    }
    hide Anchors, StrictlySorted, RoutesAt, PointsAt, Panics, HasUndefined, IsAccepted, IsInvalid, IsHeld, FlagAt;
  }

  /** So does its stagnation, marked as of one sensor exactly when one point observes it. */
  lemma {:induction false} EachEdgeGetsItsStagnation(id: Id, in_: Inputs, edgeIds: set<Id>, e: Id)
    requires in_.windowStart < in_.windowEnd && ExclusiveAnchors(in_) && SnapshotOf(id, in_).Composed?
    ensures var r := SnapshotOf(id, in_);
      About(ArcStagnationsOf(r.snapshot, r.gaps, edgeIds), StagnationEdge, e) == ExpectedStagnations(in_, edgeIds, e)
  {
    hide About, StagnationsIn, OutcomeOf, StagnationFor;
    AcceptedAnchorsAre(in_);
    StagnationsOfEdge(Anchors(in_), OutcomesOf(in_), edgeIds, e);
    if IsAccepted(in_, RouteAnchor(e)) && e != "" {
      StagnationIs(in_, e);
    }
    hide Anchors, StrictlySorted, RoutesAt, PointsAt, Panics, HasUndefined, IsAccepted, IsInvalid, IsHeld, FlagAt;
  }

  /** And each node at most one occupancy, of its own class. */
  lemma {:induction false} EachNodeGetsItsOccupancy(id: Id, in_: Inputs, nodeIds: set<Id>, n: Id)
    requires in_.windowStart < in_.windowEnd && ExclusiveAnchors(in_) && SnapshotOf(id, in_).Composed?
    ensures var r := SnapshotOf(id, in_);
      About(NodeOccupanciesOf(r.snapshot, r.gaps, nodeIds), NodeOf, n) == ExpectedOccupancies(in_, nodeIds, n)
  {
    hide About, OccupanciesIn, OutcomeOf, OccupancyFor;
    AcceptedAnchorsAre(in_);
    OccupanciesOfNode(Anchors(in_), OutcomesOf(in_), nodeIds, n);
    if IsAccepted(in_, PointAnchor(n)) && n != "" {
      OccupancyIs(in_, n);
    }
    hide Anchors, StrictlySorted, RoutesAt, PointsAt, Panics, HasUndefined, IsAccepted, IsInvalid, IsHeld, FlagAt;
  }
}
