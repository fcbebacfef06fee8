/** The tables that observation cycles of one event read and write. */
module SnapshotRepositories {
  import opened Basics
  import opened Seqs
  import opened Sorting
  import opened StableSort
  import opened Domain
  import opened SensorSets
  import opened ArcTables
  import opened ArcSavings
  import opened ArcSummary
  import opened ArcHistories
  import opened ObservationCycles

  function SnapshotEnd(s: Snapshot): Time {
    s.windowEnd
  }

  /** Points first, then routes: the order in which sensor sets are listed. */
  predicate PointsFirst(a: GraphAnchor, b: GraphAnchor) {
    AnchorBefore(GraphAnchor(a.routeId, a.pointId), GraphAnchor(b.routeId, b.pointId))
  }

  lemma {:induction false} PointsFirstIsOrder()
    ensures StrictTotalOrder(PointsFirst)
  {
    AnchorOrder();
    forall x, y
      ensures x == y || PointsFirst(x, y) || PointsFirst(y, x)
    {
      assert GraphAnchor(x.routeId, x.pointId) == GraphAnchor(y.routeId, y.pointId) ==> x == y;
    }
  }

  class SnapshotRepository {
    var sensorSets: SetTable
    var snapshots: seq<Snapshot>
    var outcomes: seq<OutcomeRow>
    var stagnation: map<StagnationCell, StagnationRow>
    var flowDwell: map<FlowDwellCell, FlowDwellRow>

    /** Both hourly tables are the aggregates of all saved samples. */
    ghost predicate Valid()
      reads this
    {
      && Keyed(sensorSets)
      && StagnationIsRight(stagnation, AllSamples(snapshots))
      && FlowDwellIsRight(flowDwell, AllSamples(snapshots))
    }

    ghost function State(): Store
      reads this
    {
      Store(sensorSets, snapshots, outcomes)
    }

    constructor ()
      ensures Valid() && State() == START.store
    {
      sensorSets, snapshots, outcomes, stagnation, flowDwell := map[], [], [], map[], map[];
    }

    /** One transaction: the snapshot, then two upserts for each of its samples. It fails at
        statement `fault`, or at the commit when there are not as many, and then changes nothing. */
    method SaveSnapshot(snapshot: Snapshot, fault: Option<nat>) returns (ok: bool)
      requires Valid()
      modifies this
      ensures Valid()
      ensures ok <==> fault == None && !Taken(old(snapshots), snapshot.id)
      ensures State() == if ok then old(State()).(snapshots := old(snapshots) + [snapshot]) else old(State())
      ensures ok ==> forall k :: StagnationGrows(old(stagnation), stagnation, snapshot, k)
      ensures ok ==> forall k :: FlowDwellGrows(old(flowDwell), flowDwell, snapshot, k)
      ensures !ok ==> stagnation == old(stagnation) && flowDwell == old(flowDwell)
    {
      if fault == Some(0) || Taken(snapshots, snapshot.id) {
        return false;
      }
      var saved := snapshots;
      ghost var before := AllSamples(saved);
      var savedStagnation, savedFlowDwell := stagnation, flowDwell;
      snapshots := snapshots + [snapshot];
      assert (saved + [snapshot])[..|saved|] == saved;
      var statement: nat := 1;
      var scores := snapshot.routeScores;
      assert before + SamplesIn(snapshot, scores[..0]) == before;
      for i := 0 to |scores|
        invariant snapshots == saved + [snapshot] && sensorSets == old(sensorSets) && outcomes == old(outcomes)
        invariant StagnationIsRight(stagnation, before + SamplesIn(snapshot, scores[..i]))
        invariant FlowDwellIsRight(flowDwell, before + SamplesIn(snapshot, scores[..i]))
      {
        AddScore(before, snapshot, scores, i);
        var sample := SampleOf(snapshot, scores[i]);
        if sample == None {
          continue;
        }
        if fault == Some(statement) || fault == Some(statement + 1) {
          snapshots, stagnation, flowDwell := saved, savedStagnation, savedFlowDwell;
          return false;
        }
        ghost var samples := before + SamplesIn(snapshot, scores[..i]);
        UpsertKeepsAggregate(stagnation, samples, sample.value, StagnationKey, FreshStagnation, MergeStagnation);
        UpsertKeepsAggregate(flowDwell, samples, sample.value, FlowDwellKey, FreshFlowDwell, MergeFlowDwell);
        stagnation := Upsert(stagnation, StagnationKey, FreshStagnation, MergeStagnation, sample.value);
        flowDwell := Upsert(flowDwell, FlowDwellKey, FreshFlowDwell, MergeFlowDwell, sample.value);
        statement := statement + 2;
      }
      assert scores[..|scores|] == scores;
      if fault != None {
        snapshots, stagnation, flowDwell := saved, savedStagnation, savedFlowDwell;
        return false;
      }
      ok := true;
      TablesGrow(savedStagnation, stagnation, savedFlowDwell, flowDwell, saved, snapshot);
    }

    /** One transaction that upserts each set; a row that is not exclusive violates its check. */
    method SaveSensorSets(sets: seq<SensorSet>, fault: Option<nat>) returns (ok: bool)
      requires Valid()
      modifies this`sensorSets
      ensures Valid()
      ensures ok <==> fault == None && AllExclusive(sets)
      ensures sensorSets == if ok then Upserted(old(sensorSets), sets) else old(sensorSets)
    {
      var saved := sensorSets;
      for i := 0 to |sets|
        invariant Keyed(sensorSets) && sensorSets == Upserted(saved, sets[..i])
        invariant forall j :: 0 <= j < i ==> Exclusive(sets[j].anchor)
      {
        if fault == Some(i) || !Exclusive(sets[i].anchor) {
          sensorSets := saved;
          return false;
        }
        assert sets[..i + 1][..i] == sets[..i];
        sensorSets := sensorSets[sets[i].anchor := sets[i]];
      }
      assert sets[..|sets|] == sets;
      if fault != None {
        sensorSets := saved;
        return false;
      }
      ok := true;
    }

    method ListSensorSets() returns (sets: seq<SensorSet>)
      requires Valid()
      ensures Lists(sets, sensorSets)
      ensures forall i, j :: 0 <= i < j < |sets| ==>
                || Before(sets[i].anchor.pointId, sets[j].anchor.pointId)
                || (sets[i].anchor.pointId == sets[j].anchor.pointId
                    && Before(sets[i].anchor.routeId, sets[j].anchor.routeId))
    {
      PointsFirstIsOrder();
      var anchors := Sorted(sensorSets.Keys, PointsFirst);
      sets := RowsInOrder(sensorSets, anchors, PointsFirst);
      forall i, j | 0 <= i < j < |sets|
        ensures PointsFirst(sets[i].anchor, sets[j].anchor)
      {
        assert Map(sets, AnchorOf)[i] == anchors[i] && Map(sets, AnchorOf)[j] == anchors[j];
      }
    }

    method ListSnapshotsEndingAfter(after: Time) returns (history: seq<Snapshot>)
      ensures forall s :: s in history <==> s in snapshots && s.windowEnd > after
      ensures forall i, j :: 0 <= i < j < |history| ==> history[i].windowEnd <= history[j].windowEnd
      ensures IsStableSortOf(history, EndingAfter(snapshots, after), SnapshotEnd)
      ensures InTimeOrder(snapshots, SnapshotEnd) ==> history == EndingAfter(snapshots, after)
    {
      history := OrderedByTime(snapshots, (s: Snapshot) => s.windowEnd > after, SnapshotEnd);
      FilterMembers(snapshots, (s: Snapshot) => s.windowEnd > after);
      SameMembers(history, EndingAfter(snapshots, after));
      assert forall i :: 0 <= i < |history| ==> SnapshotEnd(history[i]) == history[i].windowEnd;
      if InTimeOrder(snapshots, SnapshotEnd) {
        FilterInTimeOrder(snapshots, (s: Snapshot) => s.windowEnd > after, SnapshotEnd);
        SortOfSorted(EndingAfter(snapshots, after), SnapshotEnd);
      }
    }

    method EarliestSnapshotStart() returns (earliest: Option<Time>)
      ensures earliest == EarliestStart(snapshots)
    {
      earliest := None;
      for i := 0 to |snapshots|
        invariant earliest == EarliestStart(snapshots[..i])
      {
        assert snapshots[..i + 1][..i] == snapshots[..i];
        if earliest == None || snapshots[i].windowStart < earliest.value {
          earliest := Some(snapshots[i].windowStart);
        }
      }
      assert snapshots[..|snapshots|] == snapshots;
    }

    method SummarizeHistory(since: Time) returns (histories: seq<ArcHistory>)
      requires Valid()
      ensures IsArcHistory(histories, AllSamples(snapshots), sensorSets, since)
    {
      histories := SummarizeArcHistory(stagnation, flowDwell, sensorSets, since, AllSamples(snapshots));
    }

    /** The latest outcome with a snapshot, and the window end of that snapshot. */
    method LatestOptimizationOutcome() returns (latest: Option<OptimizationOutcome>)
      ensures latest == LatestOutcome(snapshots, outcomes)
    {
      var i := |outcomes|;
      assert outcomes[..i] == outcomes;
      while i > 0
        invariant 0 <= i <= |outcomes|
        invariant LatestOutcome(snapshots, outcomes) == LatestOutcome(snapshots, outcomes[..i])
      {
        i := i - 1;
        assert outcomes[..i + 1][..i] == outcomes[..i];
        var windowEnd := WindowEndOf(snapshots, outcomes[i].snapshotId);
        if windowEnd.Some? {
          return Some(ReadOutcome(outcomes[i], windowEnd.value));
        }
      }
      latest := None;
    }

    method SaveOptimizationOutcome(outcome: OptimizationOutcome, fails: bool) returns (ok: bool)
      requires Valid()
      modifies this`outcomes
      ensures Valid()
      ensures ok <==> !fails
      ensures outcomes == if ok then old(outcomes) + [OutcomeRowOf(outcome)] else old(outcomes)
    {
      if fails {
        return false;
      }
      outcomes := outcomes + [OutcomeRowOf(outcome)];
      ok := true;
    }
  }

  lemma {:induction false} TablesGrow(stagnation: map<StagnationCell, StagnationRow>,
      stagnation': map<StagnationCell, StagnationRow>, flowDwell: map<FlowDwellCell, FlowDwellRow>,
      flowDwell': map<FlowDwellCell, FlowDwellRow>, snapshots: seq<Snapshot>, snapshot: Snapshot)
    requires StagnationIsRight(stagnation, AllSamples(snapshots)) && FlowDwellIsRight(flowDwell, AllSamples(snapshots))
    requires StagnationIsRight(stagnation', AllSamples(snapshots + [snapshot]))
    requires FlowDwellIsRight(flowDwell', AllSamples(snapshots + [snapshot]))
    ensures forall k :: StagnationGrows(stagnation, stagnation', snapshot, k)
    ensures forall k :: FlowDwellGrows(flowDwell, flowDwell', snapshot, k)
  {
    forall k {
      StagnationTableGrows(stagnation, stagnation', snapshots, snapshot, k);
    }
    forall k {
      FlowDwellTableGrows(flowDwell, flowDwell', snapshots, snapshot, k);
    }
  }

  lemma {:induction false} SameMembers(a: seq<Snapshot>, b: seq<Snapshot>)
    requires multiset(a) == multiset(b)
    ensures forall s :: s in a <==> s in b
  {
    forall s
      ensures s in a <==> s in b
    {
      assert s in multiset(a) <==> s in multiset(b);
    }
  }

  lemma {:induction false} AddScore(before: seq<ArcSample>, snapshot: Snapshot, scores: seq<RouteScore>, i: int)
    requires 0 <= i < |scores|
    ensures before + SamplesIn(snapshot, scores[..i + 1])
         == match SampleOf(snapshot, scores[i])
            case Some(s) => before + SamplesIn(snapshot, scores[..i]) + [s]
            case None => before + SamplesIn(snapshot, scores[..i])
  {
    assert scores[..i + 1] == scores[..i] + [scores[i]];
    FilterMapAppend(scores[..i], scores[i], (score: RouteScore) => SampleOf(snapshot, score));
    assert SamplesIn(snapshot, scores[..i]) + [] == SamplesIn(snapshot, scores[..i]);
  }
}
