/** Tracking which observation points compose each anchor, and since when. */
module SensorSets {
  import opened Basics
  import opened Seqs
  import opened Sorting
  import opened Domain

  lemma {:induction false} AnchorOrder()
    ensures StrictTotalOrder(AnchorBefore)
  {
    forall x {
      AnchorBeforeIrreflexive(x);
    }
    forall x, y, z | AnchorBefore(x, y) && AnchorBefore(y, z)
      ensures AnchorBefore(x, z)
    {
      AnchorBeforeTransitive(x, y, z);
    }
    forall x, y
      ensures x == y || AnchorBefore(x, y) || AnchorBefore(y, x)
    {
      AnchorBeforeTotal(x, y);
    }
  }

  lemma {:induction false} IdOrder()
    ensures StrictTotalOrder(Before)
  {
    forall x {
      BeforeIrreflexive(x);
    }
    forall x, y, z | Before(x, y) && Before(y, z)
      ensures Before(x, z)
    {
      BeforeTransitive(x, y, z);
    }
    forall x, y
      ensures x == y || Before(x, y) || Before(y, x)
    {
      BeforeTotal(x, y);
    }
  }

  type SetTable = map<GraphAnchor, SensorSet>

  ghost predicate Keyed(table: SetTable) {
    forall a :: a in table ==> table[a].anchor == a
  }

  /** The sets of a list by anchor; a later set replaces an earlier one. */
  function ByAnchor(sets: seq<SensorSet>): (r: SetTable)
    ensures Keyed(r)
  {
    if |sets| == 0 then map[]
    else ByAnchor(sets[..|sets| - 1])[sets[|sets| - 1].anchor := sets[|sets| - 1]]
  }

  /** What a composed set is recorded as, or nothing when it composes as before. */
  function Update(table: SetTable, set_: SensorSet, at: Time): Option<SensorSet> {
    if set_.anchor !in table then Some(set_.(changedAt := ZERO_TIME))
    else if table[set_.anchor].pointIds == set_.pointIds then None
    else Some(set_.(changedAt := at))
  }

  function Track(table: SetTable, composed: seq<SensorSet>, at: Time): SetTable {
    if |composed| == 0 then table
    else
      var t := Track(table, composed[..|composed| - 1], at);
      match Update(t, composed[|composed| - 1], at)
      case None => t
      case Some(s) => t[s.anchor := s]
  }

  /** The sets that change the table, in composition order. */
  function Updated(table: SetTable, composed: seq<SensorSet>, at: Time): seq<SensorSet> {
    if |composed| == 0 then []
    else
      var rest := Updated(table, composed[..|composed| - 1], at);
      match Update(Track(table, composed[..|composed| - 1], at), composed[|composed| - 1], at)
      case None => rest
      case Some(s) => rest + [s]
  }

  /** Upserting a list of sets. */
  function Upserted(table: SetTable, sets: seq<SensorSet>): SetTable {
    if |sets| == 0 then table
    else Upserted(table, sets[..|sets| - 1])[sets[|sets| - 1].anchor := sets[|sets| - 1]]
  }

  /** Saving the updated sets makes the stored table the tracked one. */
  lemma {:induction false} SavingUpdatesTracks(table: SetTable, composed: seq<SensorSet>, at: Time)
    ensures Upserted(table, Updated(table, composed, at)) == Track(table, composed, at)
  {
    if |composed| > 0 {
      var rest := composed[..|composed| - 1];
      SavingUpdatesTracks(table, rest, at);
      var u := Updated(table, rest, at);
      match Update(Track(table, rest, at), composed[|composed| - 1], at)
      case None =>
      case Some(s) => assert (u + [s])[..|u|] == u;
    }
  }

  ghost predicate DistinctAnchors(sets: seq<SensorSet>) {
    forall i, j :: 0 <= i < j < |sets| ==> sets[i].anchor != sets[j].anchor
  }

  /** What composing a snapshot guarantees: every score has the sensor set it was composed from. */
  ghost predicate WellComposed(r: NewSnapshotResult, windowEnd: Time) {
    && (r.Composed? || r.NotANumber? ==> DistinctAnchors(r.sensors))
    && (r.Composed? ==>
          && r.snapshot.windowStart < r.snapshot.windowEnd == windowEnd
          && (forall p :: p in r.snapshot.pointScores ==> p.pointId != "" && HasSet(r.sensors, p.pointId, ""))
          && (forall s :: s in r.snapshot.routeScores ==> s.routeId != "" && HasRouteSet(r.sensors, s.routeId)))
  }

  ghost predicate HasSet(sensors: seq<SensorSet>, pointId: Id, routeId: Id) {
    exists i :: 0 <= i < |sensors| && sensors[i].anchor == GraphAnchor(pointId, routeId)
  }

  ghost predicate HasRouteSet(sensors: seq<SensorSet>, routeId: Id) {
    exists i :: 0 <= i < |sensors| && sensors[i].anchor.routeId == routeId
  }

  function IdsByAnchor(sets: seq<SensorSet>): map<GraphAnchor, seq<Id>> {
    if |sets| == 0 then map[]
    else IdsByAnchor(sets[..|sets| - 1])[sets[|sets| - 1].anchor := sets[|sets| - 1].pointIds]
  }

  lemma {:induction false} IdsByAnchorDomain(sets: seq<SensorSet>, a: GraphAnchor)
    ensures a in IdsByAnchor(sets) <==> exists i :: 0 <= i < |sets| && sets[i].anchor == a
  {
    if |sets| > 0 {
      var rest := sets[..|sets| - 1];
      IdsByAnchorDomain(rest, a);
      assert sets[|sets| - 1].anchor == a || forall i :: 0 <= i < |sets| && sets[i].anchor == a ==> rest[i].anchor == a;
      if i :| 0 <= i < |rest| && rest[i].anchor == a {
        assert sets[i].anchor == a;
      }
    }
  }

  /** The entry a table has for an anchor after the anchor was composed from `ids`. */
  function Recorded(table: SetTable, a: GraphAnchor, ids: seq<Id>, at: Time): SensorSet {
    if a !in table then SensorSet(a, ids, ZERO_TIME)
    else if table[a].pointIds == ids then table[a]
    else SensorSet(a, ids, at)
  }

  ghost predicate TrackedEntry(table: SetTable, ids: map<GraphAnchor, seq<Id>>, at: Time, t: SetTable, a: GraphAnchor) {
    && (a in t <==> a in table || a in ids)
    && (a in t ==> t[a] == if a in ids then Recorded(table, a, ids[a], at) else table[a])
  }

  /** How tracking one composition changes the entry of each anchor. */
  lemma {:induction false} TrackPointwise(table: SetTable, composed: seq<SensorSet>, at: Time, a: GraphAnchor)
    requires DistinctAnchors(composed)
    ensures TrackedEntry(table, IdsByAnchor(composed), at, Track(table, composed, at), a)
  {
    if |composed| > 0 {
      var rest, l := composed[..|composed| - 1], composed[|composed| - 1];
      TrackPointwise(table, rest, at, a);
      IdsByAnchorDomain(rest, l.anchor);
      assert l.anchor !in IdsByAnchor(rest);
    }
  }

  lemma {:induction false} UpsertedAnchors(table: SetTable, sets: seq<SensorSet>, a: GraphAnchor)
    requires a in Upserted(table, sets) && a !in table
    ensures exists i :: 0 <= i < |sets| && sets[i].anchor == a
  {
    if sets[|sets| - 1].anchor != a {
      UpsertedAnchors(table, sets[..|sets| - 1], a);
      var i :| 0 <= i < |sets| - 1 && sets[..|sets| - 1][i].anchor == a;
      assert sets[i].anchor == a;
    }
  }

  /** A list that holds exactly the rows of a table, each once. */
  ghost predicate Lists(sets: seq<SensorSet>, table: SetTable) {
    && DistinctAnchors(sets)
    && (forall i :: 0 <= i < |sets| ==> sets[i].anchor in table && table[sets[i].anchor] == sets[i])
    && (forall a :: a in table ==> exists i :: 0 <= i < |sets| && sets[i].anchor == a)
  }

  lemma {:induction false} ByAnchorEntry(sets: seq<SensorSet>, i: int)
    requires DistinctAnchors(sets) && 0 <= i < |sets|
    ensures sets[i].anchor in ByAnchor(sets) && ByAnchor(sets)[sets[i].anchor] == sets[i]
  {
    if i < |sets| - 1 {
      ByAnchorEntry(sets[..|sets| - 1], i);
    }
  }

  lemma {:induction false} ByAnchorDomain(sets: seq<SensorSet>, a: GraphAnchor)
    requires a in ByAnchor(sets)
    ensures exists i :: 0 <= i < |sets| && sets[i].anchor == a
  {
    if sets[|sets| - 1].anchor != a {
      ByAnchorDomain(sets[..|sets| - 1], a);
      var i :| 0 <= i < |sets| - 1 && sets[..|sets| - 1][i].anchor == a;
      assert sets[i].anchor == a;
    }
  }

  lemma {:induction false} ByAnchorOfList(sets: seq<SensorSet>, table: SetTable)
    requires Lists(sets, table)
    ensures ByAnchor(sets) == table
  {
    forall a
      ensures a in ByAnchor(sets) <==> a in table
      ensures a in table ==> a in ByAnchor(sets) && ByAnchor(sets)[a] == table[a]
    {
      if a in table {
        var i :| 0 <= i < |sets| && sets[i].anchor == a;
        ByAnchorEntry(sets, i);
      }
      if a in ByAnchor(sets) {
        ByAnchorDomain(sets, a);
      }
    }
  }

  method TrackSensorSets(recorded: seq<SensorSet>, composed: seq<SensorSet>, at: Time)
    returns (tracked: seq<SensorSet>, updated: seq<SensorSet>)
    ensures Lists(tracked, Track(ByAnchor(recorded), composed, at))
    ensures StrictlySorted(Map(tracked, AnchorOf), AnchorBefore)
    ensures updated == Updated(ByAnchor(recorded), composed, at)
  {
    var byAnchor: SetTable := map[];
    for i := 0 to |recorded|
      invariant byAnchor == ByAnchor(recorded[..i])
    {
      assert recorded[..i + 1][..i] == recorded[..i];
      byAnchor := byAnchor[recorded[i].anchor := recorded[i]];
    }
    assert recorded[..|recorded|] == recorded;
    ghost var table := byAnchor;
    updated := [];
    for i := 0 to |composed|
      invariant byAnchor == Track(table, composed[..i], at) && Keyed(byAnchor)
      invariant updated == Updated(table, composed[..i], at)
    {
      assert composed[..i + 1][..i] == composed[..i];
      var set_ := composed[i];
      if set_.anchor !in byAnchor {
        set_ := set_.(changedAt := ZERO_TIME);
      } else if byAnchor[set_.anchor].pointIds == set_.pointIds {
        continue;
      } else {
        set_ := set_.(changedAt := at);
      }
      byAnchor := byAnchor[set_.anchor := set_];
      updated := updated + [set_];
    }
    assert composed[..|composed|] == composed;
    tracked := SortedByAnchor(byAnchor);
  }

  function AnchorOf(s: SensorSet): GraphAnchor {
    s.anchor
  }

  /** The rows of a table in the order of their keys. */
  method RowsInOrder(table: SetTable, anchors: seq<GraphAnchor>, less: (GraphAnchor, GraphAnchor) -> bool)
    returns (sets: seq<SensorSet>)
    requires Keyed(table) && StrictTotalOrder(less) && StrictlySorted(anchors, less)
    requires forall a :: a in anchors <==> a in table
    ensures Lists(sets, table)
    ensures Map(sets, AnchorOf) == anchors
  {
    sets := [];
    for i := 0 to |anchors|
      invariant |sets| == i
      invariant forall k :: 0 <= k < i ==> anchors[k] in table && sets[k] == table[anchors[k]]
    {
      assert anchors[i] in anchors;
      sets := sets + [table[anchors[i]]];
    }
    ListsInOrder(sets, table, anchors, less);
  }

  lemma {:induction false} ListsInOrder(sets: seq<SensorSet>, table: SetTable, anchors: seq<GraphAnchor>,
      less: (GraphAnchor, GraphAnchor) -> bool)
    requires Keyed(table) && StrictTotalOrder(less) && StrictlySorted(anchors, less)
    requires forall a :: a in anchors <==> a in table
    requires |sets| == |anchors|
    requires forall k :: 0 <= k < |anchors| ==> anchors[k] in table && sets[k] == table[anchors[k]]
    ensures Lists(sets, table) && Map(sets, AnchorOf) == anchors
  {
    forall i, j | 0 <= i < j < |sets|
      ensures sets[i].anchor != sets[j].anchor
    {
      assert less(anchors[i], anchors[j]);
    }
    forall a | a in table
      ensures exists i :: 0 <= i < |sets| && sets[i].anchor == a
    {
      var i :| 0 <= i < |anchors| && anchors[i] == a;
      assert sets[i].anchor == a;
    }
  }

  method SortedByAnchor(table: SetTable) returns (tracked: seq<SensorSet>)
    requires Keyed(table)
    ensures Lists(tracked, table)
    ensures StrictlySorted(Map(tracked, AnchorOf), AnchorBefore)
  {
    AnchorOrder();
    var anchors := Sorted(table.Keys, AnchorBefore);
    tracked := RowsInOrder(table, anchors, AnchorBefore);
  }

  function ChangedAfter(sets: seq<SensorSet>, after: Time): seq<SensorSet> {
    Filter(sets, (s: SensorSet) => s.changedAt > after)
  }

  method SensorSetsChangedAfter(sets: seq<SensorSet>, after: Time) returns (changed: seq<SensorSet>)
    ensures changed == ChangedAfter(sets, after)
  {
    changed := [];
    for i := 0 to |sets|
      invariant changed == ChangedAfter(sets[..i], after)
    {
      assert sets[..i + 1][..i] == sets[..i];
      if sets[i].changedAt > after {
        changed := changed + [sets[i]];
      }
    }
    assert sets[..|sets|] == sets;
  }

  /** Since when the sensors of an anchor are what they are; zero when they never changed. */
  function SetChangedAt(table: SetTable, a: GraphAnchor): Time {
    if a in table then table[a].changedAt else ZERO_TIME
  }

  /** A snapshot keeps the scores of anchors that have not changed since its window ended. */
  function TrimSnapshot(s: Snapshot, table: SetTable): Snapshot {
    s.(pointScores := Filter(s.pointScores,
                             (p: PointScore) => !Predates(s.windowEnd, SetChangedAt(table, PointAnchor(p.pointId)))),
       routeScores := Filter(s.routeScores,
                             (r: RouteScore) => !Predates(s.windowEnd, SetChangedAt(table, RouteAnchor(r.routeId)))))
  }

  predicate Predates(windowEnd: Time, changedAt: Time) {
    changedAt != ZERO_TIME && windowEnd < changedAt
  }

  function Trim(history: seq<Snapshot>, table: SetTable): seq<Snapshot> {
    Map(history, s => TrimSnapshot(s, table))
  }

  /** The sets that ever changed. */
  function Changed(sets: seq<SensorSet>): seq<SensorSet> {
    Filter(sets, (s: SensorSet) => s.changedAt != ZERO_TIME)
  }

  lemma {:induction false} ChangedOneMore(sets: seq<SensorSet>, i: int)
    requires 0 <= i < |sets|
    ensures ByAnchor(Changed(sets[..i + 1]))
         == if sets[i].changedAt != ZERO_TIME then ByAnchor(Changed(sets[..i]))[sets[i].anchor := sets[i]]
            else ByAnchor(Changed(sets[..i]))
  {
    var kept := Changed(sets[..i]);
    assert sets[..i + 1] == sets[..i] + [sets[i]];
    FilterAppend(sets[..i], sets[i], (s: SensorSet) => s.changedAt != ZERO_TIME);
    assert (kept + [sets[i]])[..|kept|] == kept;
    assert kept + [] == kept;
  }

  method HistorySinceSensorSetChanges(history: seq<Snapshot>, sets: seq<SensorSet>) returns (trimmed: seq<Snapshot>)
    ensures trimmed == Trim(history, ByAnchor(Changed(sets)))
  {
    var changedAt: map<GraphAnchor, Time> := map[];
    ghost var table: SetTable := map[];
    for i := 0 to |sets|
      invariant table == ByAnchor(Changed(sets[..i]))
      invariant changedAt == ChangeTimes(table)
    {
      ChangedOneMore(sets, i);
      hide Changed, ByAnchor;
      if sets[i].changedAt != ZERO_TIME {
        changedAt := changedAt[sets[i].anchor := sets[i].changedAt];
        table := table[sets[i].anchor := sets[i]];
      }
    }
    hide TrimSnapshot;
    assert sets[..|sets|] == sets;
    ChangedEntries(sets);
    trimmed := [];
    for i := 0 to |history|
      invariant |trimmed| == i
      invariant forall k :: 0 <= k < i ==> trimmed[k] == TrimSnapshot(history[k], table)
    {
      var snapshot := TrimByTimes(history[i], changedAt, table);
      trimmed := trimmed + [snapshot];
    }
  }

  function ChangeTimes(table: SetTable): map<GraphAnchor, Time> {
    map a | a in table :: table[a].changedAt
  }

  lemma {:induction false} ChangedEntries(sets: seq<SensorSet>)
    ensures forall a :: a in ByAnchor(Changed(sets)) ==> ByAnchor(Changed(sets))[a].changedAt != ZERO_TIME
  {
    if |sets| > 0 {
      var rest := sets[..|sets| - 1];
      ChangedEntries(rest);
      var kept := Changed(rest);
      assert (kept + [sets[|sets| - 1]])[..|kept|] == kept;
    }
  }

  predicate PredatesIn(changedAt: map<GraphAnchor, Time>, a: GraphAnchor, windowEnd: Time) {
    a in changedAt && windowEnd < changedAt[a]
  }

  method TrimByTimes(snapshot: Snapshot, changedAt: map<GraphAnchor, Time>, ghost table: SetTable) returns (r: Snapshot)
    requires changedAt == ChangeTimes(table)
    requires forall a :: a in table ==> table[a].changedAt != ZERO_TIME
    ensures r == TrimSnapshot(snapshot, table)
  {
    var end := snapshot.windowEnd;
    r := snapshot.(
      pointScores := Filter(snapshot.pointScores,
                            (p: PointScore) => !PredatesIn(changedAt, PointAnchor(p.pointId), end)),
      routeScores := Filter(snapshot.routeScores,
                            (s: RouteScore) => !PredatesIn(changedAt, RouteAnchor(s.routeId), end)));
    FilterAgrees(snapshot.pointScores,
      (p: PointScore) => !PredatesIn(changedAt, PointAnchor(p.pointId), end),
      (p: PointScore) => !Predates(end, SetChangedAt(table, PointAnchor(p.pointId))));
    FilterAgrees(snapshot.routeScores,
      (s: RouteScore) => !PredatesIn(changedAt, RouteAnchor(s.routeId), end),
      (s: RouteScore) => !Predates(end, SetChangedAt(table, RouteAnchor(s.routeId))));
  }

  /** Sets that never changed trim nothing, so the whole table trims like its changed part. */
  lemma {:induction false} TrimByTable(history: seq<Snapshot>, sets: seq<SensorSet>, table: SetTable)
    requires Lists(sets, table)
    ensures Trim(history, ByAnchor(Changed(sets))) == Trim(history, table)
  {
    var changed := ByAnchor(Changed(sets));
    forall a
      ensures SetChangedAt(changed, a) == SetChangedAt(table, a)
    {
      ChangedAtAgrees(sets, table, a);
    }
    forall i | 0 <= i < |history|
      ensures TrimSnapshot(history[i], changed) == TrimSnapshot(history[i], table)
    {
      var end := history[i].windowEnd;
      FilterAgrees(history[i].pointScores,
        (p: PointScore) => !Predates(end, SetChangedAt(changed, PointAnchor(p.pointId))),
        (p: PointScore) => !Predates(end, SetChangedAt(table, PointAnchor(p.pointId))));
      FilterAgrees(history[i].routeScores,
        (s: RouteScore) => !Predates(end, SetChangedAt(changed, RouteAnchor(s.routeId))),
        (s: RouteScore) => !Predates(end, SetChangedAt(table, RouteAnchor(s.routeId))));
    }
  }

  lemma {:induction false} ChangedAtAgrees(sets: seq<SensorSet>, table: SetTable, a: GraphAnchor)
    requires Lists(sets, table)
    ensures SetChangedAt(ByAnchor(Changed(sets)), a) == SetChangedAt(table, a)
  {
    var changed := Changed(sets);
    ChangedEntries(sets);
    FilterMembers(sets, (s: SensorSet) => s.changedAt != ZERO_TIME);
    if a in ByAnchor(changed) {
      ByAnchorDomain(changed, a);
      var i :| 0 <= i < |changed| && changed[i].anchor == a;
      LatestEntry(changed, a);
      var s := ByAnchor(changed)[a];
      assert s in sets;
    } else if a in table && table[a].changedAt != ZERO_TIME {
      var i :| 0 <= i < |sets| && sets[i].anchor == a;
      assert sets[i] in changed;
      InByAnchor(changed, sets[i]);
    }
  }

  lemma {:induction false} LatestEntry(sets: seq<SensorSet>, a: GraphAnchor)
    requires a in ByAnchor(sets)
    ensures ByAnchor(sets)[a] in sets && ByAnchor(sets)[a].anchor == a
  {
    if sets[|sets| - 1].anchor != a {
      LatestEntry(sets[..|sets| - 1], a);
    }
  }

  lemma {:induction false} InByAnchor(sets: seq<SensorSet>, s: SensorSet)
    requires s in sets
    ensures s.anchor in ByAnchor(sets)
  {
    if sets[|sets| - 1] != s {
      InByAnchor(sets[..|sets| - 1], s);
    }
  }
}
