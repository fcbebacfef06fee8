/** What observation cycles write, and which history they hand to the optimiser, said of the saved rows. */
module CycleEffects {
  import opened Basics
  import opened Seqs
  import opened Domain
  import opened SensorSets
  import opened ObservationCycles

  /** Saved snapshots end one after another, none later than the last cycle. */
  ghost predicate SavedInOrder(t: Trace) {
    && (forall i, j :: 0 <= i < j < |t.store.snapshots| ==>
          t.store.snapshots[i].windowEnd < t.store.snapshots[j].windowEnd)
    && (forall i :: 0 <= i < |t.store.snapshots| ==> t.store.snapshots[i].windowEnd <= t.lastEnd)
  }

  lemma {:induction false} SnapshotsAreInOrder(cycles: seq<Cycle>)
    requires IsRun(cycles)
    ensures SavedInOrder(Exec(cycles)) && Exec(cycles).lastEnd == LastEnd(cycles)
  {
    if |cycles| > 0 {
      SnapshotsAreInOrder(cycles[..|cycles| - 1]);
      SaveIsInOrder(Exec(cycles[..|cycles| - 1]), cycles[|cycles| - 1]);
    }
  }

  lemma {:induction false} SaveIsInOrder(t: Trace, c: Cycle)
    requires SavedInOrder(t) && t.lastEnd < c.windowEnd && WellComposed(c.result, c.windowEnd)
    ensures SavedInOrder(Advance(t, c))
  {
    hide SavesSets, Sends, RequestOf, TrackedBy, DistinctAnchors, HasSet, HasRouteSet, IdsByAnchor, Taken;
    assert Advance(t, c).store.snapshots ==
           t.store.snapshots + (if Saves(t.store, c) then [c.result.snapshot] else []);
  }

  /** The snapshot with the scores whose anchors are still composed from the same sensors. */
  ghost function OfCurrentSensors(log: seq<Composition>, s: Snapshot): Snapshot {
    s.(pointScores := Filter(s.pointScores, (p: PointScore) => SameSensorsSince(log, s, PointAnchor(p.pointId))),
       routeScores := Filter(s.routeScores, (r: RouteScore) => SameSensorsSince(log, s, RouteAnchor(r.routeId))))
  }

  lemma {:induction false} TrimKeepsCurrent(table: SetTable, log: seq<Composition>, s: Snapshot)
    requires Ordered(log) && TableIsLog(table, log) && Logged(log, s)
    ensures TrimSnapshot(s, table) == OfCurrentSensors(log, s)
  {
    forall p | p in s.pointScores
      ensures !Predates(s.windowEnd, SetChangedAt(table, PointAnchor(p.pointId)))
         <==> SameSensorsSince(log, s, PointAnchor(p.pointId))
    {
      assert Scores(s, PointAnchor(p.pointId));
      KeptExactlyWhenUnchanged(table, log, s, PointAnchor(p.pointId));
    }
    forall r | r in s.routeScores
      ensures !Predates(s.windowEnd, SetChangedAt(table, RouteAnchor(r.routeId)))
         <==> SameSensorsSince(log, s, RouteAnchor(r.routeId))
    {
      assert Scores(s, RouteAnchor(r.routeId));
      KeptExactlyWhenUnchanged(table, log, s, RouteAnchor(r.routeId));
    }
    hide SameSensorsSince, Predates, SetChangedAt;
    FilterAgrees(s.pointScores, (p: PointScore) => !Predates(s.windowEnd, SetChangedAt(table, PointAnchor(p.pointId))),
                 (p: PointScore) => SameSensorsSince(log, s, PointAnchor(p.pointId)));
    FilterAgrees(s.routeScores, (r: RouteScore) => !Predates(s.windowEnd, SetChangedAt(table, RouteAnchor(r.routeId))),
                 (r: RouteScore) => SameSensorsSince(log, s, RouteAnchor(r.routeId)));
  }

  /** The history that any cycle of any run hands to the optimiser: each saved snapshot that ended less
      than half an hour before the cycle, once and in the order of their ends, with exactly the scores
      whose anchors are still composed from the same sensors. */
  lemma {:induction false} HistoryIsOfCurrentSensors(cycles: seq<Cycle>, c: Cycle) returns (drawn: seq<Snapshot>)
    requires IsRun(cycles + [c]) && Sends(Exec(cycles).store, c)
    ensures forall s :: s in drawn <==> s in Exec(cycles).store.snapshots && c.windowEnd - 30 * MINUTE < s.windowEnd
    ensures forall i, j :: 0 <= i < j < |drawn| ==> drawn[i].windowEnd < drawn[j].windowEnd
    ensures |RequestOf(Exec(cycles).store, c).history| == |drawn|
    ensures forall i :: 0 <= i < |drawn| ==>
              RequestOf(Exec(cycles).store, c).history[i] == OfCurrentSensors(Exec(cycles + [c]).log, drawn[i])
    ensures forall i :: 0 <= i < |drawn| ==> ScoresAreOfTheTable(Exec(cycles + [c]), drawn[i])
  {
    hide ScoresAreOfTheTable, OfCurrentSensors, Sends, TrackedBy, TableIsLog, Logged, ServedInv, IsRun, TrimSnapshot,
      LatestOutcome;
    var t := Exec(cycles);
    var recent := (s: Snapshot) => s.windowEnd > c.windowEnd - HISTORY_WINDOW;
    assert SavedInOrder(t) by {
      RunBefore(cycles, c);
      SnapshotsAreInOrder(cycles);
    }
    drawn := Filter(t.store.snapshots, recent);
    FilterMembers(t.store.snapshots, recent);
    FilterInOrder(t.store.snapshots, recent);
    forall i | 0 <= i < |drawn|
      ensures RequestOf(t.store, c).history[i] == OfCurrentSensors(Exec(cycles + [c]).log, drawn[i])
      ensures ScoresAreOfTheTable(Exec(cycles + [c]), drawn[i])
    {
      assert drawn[i] in drawn;
      HistoryAt(cycles, c, drawn[i]);
    }
  }

  /** What is kept of the snapshot was composed from the sensors that the table has. */
  ghost predicate ScoresAreOfTheTable(t: Trace, s: Snapshot) {
    forall a :: Scores(OfCurrentSensors(t.log, s), a) ==>
      a in t.store.sensorSets && ComposedFrom(t.log, s, a, t.store.sensorSets[a].pointIds)
  }

  lemma {:induction false} RunBefore(cycles: seq<Cycle>, c: Cycle)
    requires IsRun(cycles + [c])
    ensures IsRun(cycles) && LastEnd(cycles) < c.windowEnd && WellComposed(c.result, c.windowEnd)
    ensures Exec(cycles + [c]) == Advance(Exec(cycles), c)
  {
    assert (cycles + [c])[..|cycles|] == cycles;
  }

  /** Each drawn snapshot is trimmed by the table that the cycle itself leaves. */
  lemma {:induction false} HistoryAt(cycles: seq<Cycle>, c: Cycle, s: Snapshot)
    requires IsRun(cycles + [c]) && Sends(Exec(cycles).store, c) && s in Exec(cycles).store.snapshots
    ensures TrimSnapshot(s, TrackedBy(Exec(cycles).store, c)) == OfCurrentSensors(Exec(cycles + [c]).log, s)
    ensures ScoresAreOfTheTable(Exec(cycles + [c]), s)
  {
    hide OfCurrentSensors, TableIsLog, Logged, ServedInv, TrimSnapshot, IsRun, Exec, Track, Updated;
    var t := Exec(cycles);
    RunBefore(cycles, c);
    RunKeepsInv(cycles);
    AdvanceKeepsInv(t, c);
    var n :| 0 <= n < |t.store.snapshots| && t.store.snapshots[n] == s;
    StaysLogged(t.log, Composition(c.windowEnd, IdsByAnchor(c.result.sensors)), s);
    TrimKeepsCurrent(TrackedBy(t.store, c), Exec(cycles + [c]).log, s);
    TrimmedScores(TrackedBy(t.store, c), Exec(cycles + [c]).log, s);
  }

  lemma {:induction false} FilterInOrder(snapshots: seq<Snapshot>, p: Snapshot -> bool)
    requires forall i, j :: 0 <= i < j < |snapshots| ==> snapshots[i].windowEnd < snapshots[j].windowEnd
    ensures forall i, j :: 0 <= i < j < |Filter(snapshots, p)| ==>
              Filter(snapshots, p)[i].windowEnd < Filter(snapshots, p)[j].windowEnd
  {
    if |snapshots| > 0 {
      var rest, l := snapshots[..|snapshots| - 1], snapshots[|snapshots| - 1];
      FilterInOrder(rest, p);
      FilterMembers(rest, p);
      forall i | 0 <= i < |Filter(rest, p)|
        ensures Filter(rest, p)[i].windowEnd < l.windowEnd
      {
        assert Filter(rest, p)[i] in Filter(rest, p);
        var k :| 0 <= k < |rest| && rest[k] == Filter(rest, p)[i];
        assert snapshots[k] == rest[k];
      }
    }
  }

  /** And the span it claims to have is the longest time since any saved snapshot started. */
  lemma {:induction false} SpanIsOfSavedSnapshots(cycles: seq<Cycle>, c: Cycle)
    requires Sends(Exec(cycles).store, c)
    ensures var saved, span := Exec(cycles).store.snapshots, RequestOf(Exec(cycles).store, c).availableHistory;
      && (|saved| == 0 ==> span == 0)
      && (|saved| > 0 ==> exists s :: s in saved && c.windowEnd - s.windowStart == span)
      && (forall s :: s in saved ==> c.windowEnd - s.windowStart <= span)
  {
    hide AvailableSpan, Sends, Exec, LatestOutcome;
    AvailableSpanMeans(Exec(cycles).store.snapshots, c.windowEnd);
  }

  /** The set is new, or of other sensors than the table has. */
  predicate Differs(table: SetTable, s: SensorSet) {
    s.anchor !in table || table[s.anchor].pointIds != s.pointIds
  }

  /** The cycle comes to save its sensor sets, and every set it changes is of one graph element. */
  ghost predicate SetsAreSaved(store: Store, c: Cycle) {
    && c.stop in {Settings, ListHistory, ArcHistory, AvailableHistory, SaveSnapshot, GuestStatus, PreviousOutcome,
                  Optimize, SaveOutcome, Complete}
    && !c.result.NilDereference?
    && forall s :: s in c.result.sensors && Differs(store.sensorSets, s) ==>
         (s.anchor.pointId == "") != (s.anchor.routeId == "")
  }

  /** It comes to save its snapshot too, whose ID is not taken. */
  ghost predicate SnapshotIsSaved(store: Store, c: Cycle) {
    && SetsAreSaved(store, c) && c.result.Composed?
    && c.stop in {GuestStatus, PreviousOutcome, Optimize, SaveOutcome, Complete}
    && forall s :: s in store.snapshots ==> s.id != c.result.snapshot.id
  }

  /** What the table has of an anchor once the composed sets are saved. */
  ghost predicate IsSavedSet(table: SetTable, c: Cycle, after: SetTable, a: GraphAnchor)
    requires !c.result.NilDereference?
  {
    && (a in after <==> a in table || exists s :: s in c.result.sensors && s.anchor == a)
    && (forall s :: s in c.result.sensors && s.anchor == a ==>
          after[a] == if a !in table then s.(changedAt := 0)
                      else if table[a].pointIds == s.pointIds then table[a] else s.(changedAt := c.windowEnd))
    && (a in table && (forall s :: s in c.result.sensors ==> s.anchor != a) ==> after[a] == table[a])
  }

  /** Everything a cycle writes, wherever it stops. */
  lemma {:induction false} CycleWrites(store: Store, c: Cycle)
    requires !c.result.NilDereference? ==> DistinctAnchors(c.result.sensors)
    ensures var after := RunCycle(store, c);
      && (SetsAreSaved(store, c) ==> forall a :: IsSavedSet(store.sensorSets, c, after.sensorSets, a))
      && (!SetsAreSaved(store, c) ==> after.sensorSets == store.sensorSets)
      && after.snapshots == store.snapshots + (if SnapshotIsSaved(store, c) then [c.result.snapshot] else [])
      && after.outcomes == store.outcomes +
           (if SnapshotIsSaved(store, c) && c.stop == Complete
            then [OutcomeRow(c.result.snapshot.id, c.answer.verdict, c.answer.detectionState,
                             c.answer.optimizationResult, c.answer.diagnostics)]
            else [])
    ensures Sends(store, c) <==> SnapshotIsSaved(store, c) && c.stop in {Optimize, SaveOutcome, Complete}
  {
    WhatIsSaved(store, c);
    if SetsAreSaved(store, c) {
      forall a
        ensures IsSavedSet(store.sensorSets, c, TrackedBy(store, c), a)
      {
        SavedSet(store.sensorSets, c, a);
      }
    }
    hide SavesSets, Saves, SetsAreSaved, SnapshotIsSaved, IsSavedSet, TrackedBy, DistinctAnchors;
  }

  lemma {:induction false} WhatIsSaved(store: Store, c: Cycle)
    requires !c.result.NilDereference? ==> DistinctAnchors(c.result.sensors)
    ensures SavesSets(store, c) <==> SetsAreSaved(store, c)
    ensures Saves(store, c) <==> SnapshotIsSaved(store, c)
  {
    if !c.result.NilDereference? {
      UpdatedAreExclusive(store.sensorSets, c.result.sensors, c.windowEnd);
    }
    StopsAfter(c);
    TakenIs(store.snapshots, if c.result.Composed? then c.result.snapshot.id else "");
    hide AllExclusive, Updated, Differs, DistinctAnchors, Rank, Taken;
  }

  /** Which cycles get past saving their sensor sets and their snapshot. */
  lemma {:induction false} StopsAfter(c: Cycle)
    ensures c.Passes(SaveSensorSets) <==>
            c.stop in {Settings, ListHistory, ArcHistory, AvailableHistory, SaveSnapshot, GuestStatus, PreviousOutcome,
                       Optimize, SaveOutcome, Complete}
    ensures c.Passes(SaveSnapshot) <==> c.stop in {GuestStatus, PreviousOutcome, Optimize, SaveOutcome, Complete}
  {
  }

  lemma {:induction false} TakenIs(snapshots: seq<Snapshot>, id: Id)
    ensures Taken(snapshots, id) <==> !forall s :: s in snapshots ==> s.id != id
  {
    if s :| s in snapshots && s.id == id {
      var i :| 0 <= i < |snapshots| && snapshots[i] == s;
    }
  }

  lemma {:induction false} UpdatedAreExclusive(table: SetTable, composed: seq<SensorSet>, at: Time)
    requires DistinctAnchors(composed)
    ensures AllExclusive(Updated(table, composed, at))
       <==> forall s :: s in composed && Differs(table, s) ==> (s.anchor.pointId == "") != (s.anchor.routeId == "")
  {
    if |composed| > 0 {
      var rest, l := composed[..|composed| - 1], composed[|composed| - 1];
      assert composed == rest + [l];
      UpdatedAreExclusive(table, rest, at);
      TrackPointwise(table, rest, at, l.anchor);
      IdsByAnchorDomain(rest, l.anchor);
      var updated := Updated(table, rest, at);
      var change := Update(Track(table, rest, at), l, at);
      assert change.Some? <==> Differs(table, l);
      hide Track, Update, IdsByAnchor, TrackedEntry;
      if change.Some? {
        ExclusiveAppend(updated, change.value);
      }
    }
  }

  lemma {:induction false} ExclusiveAppend(sets: seq<SensorSet>, s: SensorSet)
    ensures AllExclusive(sets + [s]) <==> AllExclusive(sets) && Exclusive(s.anchor)
  {
    var l := sets + [s];
    assert l[|sets|] == s;
    assert forall i :: 0 <= i < |sets| ==> l[i] == sets[i];
  }

  lemma {:induction false} SavedSet(table: SetTable, c: Cycle, a: GraphAnchor)
    requires !c.result.NilDereference? && DistinctAnchors(c.result.sensors)
    ensures IsSavedSet(table, c, Track(table, c.result.sensors, c.windowEnd), a)
  {
    var sensors := c.result.sensors;
    TrackPointwise(table, sensors, c.windowEnd, a);
    IdsByAnchorDomain(sensors, a);
    if i :| 0 <= i < |sensors| && sensors[i].anchor == a {
      assert sensors[i] in sensors;
    }
    forall s | s in sensors && s.anchor == a
      ensures IdsByAnchor(sensors)[a] == s.pointIds
    {
      var i :| 0 <= i < |sensors| && sensors[i] == s;
      IdsByAnchorEntry(sensors, i);
    }
    hide Track, IdsByAnchor;
  }

  lemma {:induction false} IdsByAnchorEntry(sets: seq<SensorSet>, i: int)
    requires DistinctAnchors(sets) && 0 <= i < |sets|
    ensures sets[i].anchor in IdsByAnchor(sets) && IdsByAnchor(sets)[sets[i].anchor] == sets[i].pointIds
  {
    if i < |sets| - 1 {
      IdsByAnchorEntry(sets[..|sets| - 1], i);
    }
  }

  /** Row i of the outcomes is the last whose snapshot is stored, and snapshot j is that snapshot. */
  ghost predicate IsLatestRow(snapshots: seq<Snapshot>, outcomes: seq<OutcomeRow>, i: int, j: int) {
    && 0 <= i < |outcomes| && 0 <= j < |snapshots| && snapshots[j].id == outcomes[i].snapshotId
    && forall k, s :: i < k < |outcomes| && s in snapshots ==> s.id != outcomes[k].snapshotId
  }

  /** The outcome read back is the last stored one with a snapshot, which gives it its server time. */
  lemma {:induction false} LatestOutcomeMeans(snapshots: seq<Snapshot>, outcomes: seq<OutcomeRow>)
    ensures LatestOutcome(snapshots, outcomes) == None ==>
              forall s, row :: s in snapshots && row in outcomes ==> s.id != row.snapshotId
    ensures LatestOutcome(snapshots, outcomes).Some? ==>
              exists i, j :: IsLatestRow(snapshots, outcomes, i, j) &&
                LatestOutcome(snapshots, outcomes).value ==
                OptimizationOutcome(outcomes[i].snapshotId, snapshots[j].windowEnd, outcomes[i].verdict,
                                    outcomes[i].detectionState, outcomes[i].optimizationResult, None,
                                    outcomes[i].diagnostics)
  {
    if |outcomes| > 0 {
      var rest, l := outcomes[..|outcomes| - 1], outcomes[|outcomes| - 1];
      assert outcomes == rest + [l];
      LatestOutcomeMeans(snapshots, rest);
      if WindowEndOf(snapshots, l.snapshotId).Some? {
        var j := WindowEndIs(snapshots, l.snapshotId);
        assert IsLatestRow(snapshots, outcomes, |rest|, j);
      } else {
        NotTaken(snapshots, l.snapshotId);
        if LatestOutcome(snapshots, rest).Some? {
          var i, j :| IsLatestRow(snapshots, rest, i, j) && LatestOutcome(snapshots, rest).value ==
            OptimizationOutcome(rest[i].snapshotId, snapshots[j].windowEnd, rest[i].verdict,
                                rest[i].detectionState, rest[i].optimizationResult, None, rest[i].diagnostics);
          assert IsLatestRow(snapshots, outcomes, i, j);
        }
      }
    }
  }

  lemma {:induction false} WindowEndIs(snapshots: seq<Snapshot>, id: Id) returns (j: int)
    requires WindowEndOf(snapshots, id).Some?
    ensures 0 <= j < |snapshots| && snapshots[j].id == id && WindowEndOf(snapshots, id) == Some(snapshots[j].windowEnd)
  {
    j := |snapshots| - 1;
    if snapshots[j].id != id {
      j := WindowEndIs(snapshots[..j], id);
    }
  }

  lemma {:induction false} NotTaken(snapshots: seq<Snapshot>, id: Id)
    requires WindowEndOf(snapshots, id) == None
    ensures forall s :: s in snapshots ==> s.id != id
  {
    if |snapshots| > 0 {
      assert snapshots == snapshots[..|snapshots| - 1] + [snapshots[|snapshots| - 1]];
      NotTaken(snapshots[..|snapshots| - 1], id);
    }
  }
}
