/** The sensor changes of a cycle as the optimiser receives them. */
module FlowEvents {
  import opened Basics
  import opened Seqs
  import opened StableSort
  import opened Domain

  /** A change of the sensors of an edge or a node of the graph. */
  datatype FlowEvent = FlowEvent(target: string, at: Time)

  function ChangeTime(s: SensorSet): Time {
    s.changedAt
  }

  /** A change of an element that is not in the graph is not an event. */
  function EventOf(change: SensorSet, nodeIds: set<Id>, edgeIds: set<Id>): Option<FlowEvent> {
    if change.anchor.routeId in edgeIds then Some(FlowEvent("edge:" + change.anchor.routeId, change.changedAt))
    else if change.anchor.pointId in nodeIds then Some(FlowEvent("node:" + change.anchor.pointId, change.changedAt))
    else None
  }

  function EventsOf(changes: seq<SensorSet>, nodeIds: set<Id>, edgeIds: set<Id>): seq<FlowEvent> {
    FilterMap(changes, (s: SensorSet) => EventOf(s, nodeIds, edgeIds))
  }

  /** The changes of elements of the graph, earliest first, and those of one time as listed. */
  method FlowEvents(changes: seq<SensorSet>, nodeIds: set<Id>, edgeIds: set<Id>) returns (events: seq<FlowEvent>)
    ensures events == EventsOf(SortByTime(changes, ChangeTime), nodeIds, edgeIds)
    ensures events == Map(Filter(SortByTime(changes, ChangeTime), (s: SensorSet) =>
                            s.anchor.routeId in edgeIds || s.anchor.pointId in nodeIds),
                          (s: SensorSet) =>
                            FlowEvent(if s.anchor.routeId in edgeIds then "edge:" + s.anchor.routeId
                                      else "node:" + s.anchor.pointId, s.changedAt))
    ensures multiset(events) == multiset(EventsOf(changes, nodeIds, edgeIds))
    ensures IsStableSortOf(SortByTime(changes, ChangeTime), changes, (s: SensorSet) => s.changedAt)
    ensures forall i, j :: 0 <= i < j < |events| ==> events[i].at <= events[j].at
  {
    var sorted := SortByTime(changes, ChangeTime);
    SortIsStable(changes, ChangeTime);
    events := [];
    for i := 0 to |sorted|
      invariant events == EventsOf(sorted[..i], nodeIds, edgeIds)
      invariant forall k :: 0 <= k < |events| ==> i > 0 && events[k].at <= sorted[i - 1].changedAt
      invariant forall k, l :: 0 <= k < l < |events| ==> events[k].at <= events[l].at
    {
      assert sorted[..i + 1][..i] == sorted[..i];
      assert i > 0 ==> ChangeTime(sorted[i - 1]) <= ChangeTime(sorted[i]);
      var event := EventOf(sorted[i], nodeIds, edgeIds);
      if event.Some? {
        events := events + [event.value];
      }
    }
    assert sorted[..|sorted|] == sorted;
    FilterMapPermuted(sorted, changes, (s: SensorSet) => EventOf(s, nodeIds, edgeIds));
    EventsAre(sorted, nodeIds, edgeIds);
    SameTimes(sorted, changes);
  }

  lemma {:induction false} EventsAre(changes: seq<SensorSet>, nodeIds: set<Id>, edgeIds: set<Id>)
    ensures EventsOf(changes, nodeIds, edgeIds) ==
            Map(Filter(changes, (s: SensorSet) => s.anchor.routeId in edgeIds || s.anchor.pointId in nodeIds),
                (s: SensorSet) =>
                  FlowEvent(if s.anchor.routeId in edgeIds then "edge:" + s.anchor.routeId
                            else "node:" + s.anchor.pointId, s.changedAt))
  {
    if |changes| > 0 {
      EventsAre(changes[..|changes| - 1], nodeIds, edgeIds);
    }
  }

  lemma {:induction false} SameTimes(sorted: seq<SensorSet>, changes: seq<SensorSet>)
    requires IsStableSortOf(sorted, changes, ChangeTime)
    ensures IsStableSortOf(sorted, changes, (s: SensorSet) => s.changedAt)
  {
    var at := (s: SensorSet) => s.changedAt;
    forall t: Time
      ensures AtTime(sorted, at, t) == AtTime(changes, at, t)
    {
      SameAtTime(sorted, t);
      SameAtTime(changes, t);
    }
    forall i, j | 0 <= i < j < |sorted|
      ensures at(sorted[i]) <= at(sorted[j])
    {
      assert ChangeTime(sorted[i]) <= ChangeTime(sorted[j]);
    }
  }

  lemma {:induction false} SameAtTime(sets: seq<SensorSet>, t: Time)
    ensures AtTime(sets, (s: SensorSet) => s.changedAt, t) == AtTime(sets, ChangeTime, t)
  {
    if |sets| > 0 {
      SameAtTime(sets[..|sets| - 1], t);
    }
  }
}
