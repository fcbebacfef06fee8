/** The digest of the history as the optimiser receives it. */
module FlowDigests {
  import opened Basics
  import opened Seqs
  import opened Sorting
  import opened Domain
  import opened LeastSquares
  import opened FlowSensitivity
  import opened Snapshots
  import opened Quantiles
  import opened Buckets
  import opened ArcTables
  import opened ArcSummary
  import opened ArcHistories

  const MIN_ARC_HISTORY_SPAN: Duration := 4 * HOUR

  datatype TimedValue = TimedValue(at: Time, value: real)

  datatype ArcHistoryStat = ArcHistoryStat(
    edgeId: Id,
    availableSpanHours: real,
    p90Stagnation: Option<real>,
    baselineStagnation: Option<real>,
    flowSensitivityEta: Option<real>,
    flowP90: Option<real>,
    freeFlowDwellMin: Option<real>)

  /** One route score of the history, with the end of the window it is of. */
  datatype Entry = Entry(at: Time, score: RouteScore)

  class ArcWindowSeries {
    const edgeId: Id
    var flowSamples: seq<TimedValue>
    var stagnationSamples: seq<TimedValue>

    constructor (edgeId: Id)
      ensures this.edgeId == edgeId && flowSamples == [] && stagnationSamples == []
    {
      this.edgeId, flowSamples, stagnationSamples := edgeId, [], [];
    }
  }

  function EntriesOf(s: Snapshot, scores: seq<RouteScore>): seq<Entry> {
    Map(scores, (r: RouteScore) => Entry(s.windowEnd, r))
  }

  function Entries(history: seq<Snapshot>): seq<Entry> {
    FlatMap(history, (s: Snapshot) => EntriesOf(s, s.routeScores))
  }

  function FlowSample(x: Entry, e: Id): Option<TimedValue> {
    if x.score.routeId == e && x.score.exhaustive then Some(TimedValue(x.at, x.score.forward + x.score.backward))
    else None
  }

  function StagnationSample(x: Entry, e: Id): Option<TimedValue> {
    if x.score.routeId == e && x.score.exhaustive && x.score.stagnationScore.Some?
    then Some(TimedValue(x.at, x.score.stagnationScore.value)) else None
  }

  function FlowSamples(entries: seq<Entry>, e: Id): seq<TimedValue> {
    FilterMap(entries, (x: Entry) => FlowSample(x, e))
  }

  function StagnationSamples(entries: seq<Entry>, e: Id): seq<TimedValue> {
    FilterMap(entries, (x: Entry) => StagnationSample(x, e))
  }

  /** The edges of the graph in the order in which the entries first have a sample of them. */
  function FirstSeen(entries: seq<Entry>, edgeIds: set<Id>): seq<Id> {
    if |entries| == 0 then []
    else
      var rest, x := FirstSeen(entries[..|entries| - 1], edgeIds), entries[|entries| - 1];
      if x.score.routeId in edgeIds && x.score.exhaustive && x.score.routeId !in rest then rest + [x.score.routeId]
      else rest
  }

  function EdgesOf(list: seq<ArcWindowSeries>): seq<Id> {
    Map(list, (s: ArcWindowSeries) => s.edgeId)
  }

  /** The digest has one series for each edge of the graph that has a sample, and each series
      holds exactly the samples of its edge, in their order. */
  ghost predicate Tracks(series: map<Id, ArcWindowSeries>, list: seq<ArcWindowSeries>, entries: seq<Entry>,
      edgeIds: set<Id>)
    reads list
  {
    && Indexes(series, list)
    && (forall e :: e in series <==> e in edgeIds && |FlowSamples(entries, e)| > 0)
    && (forall e :: e in series ==> HoldsSamples(series[e], entries, e))
  }

  ghost predicate TracksInOrder(series: map<Id, ArcWindowSeries>, list: seq<ArcWindowSeries>, entries: seq<Entry>,
      edgeIds: set<Id>)
    reads list
  {
    Tracks(series, list, entries, edgeIds) && EdgesOf(list) == FirstSeen(entries, edgeIds)
  }

  /** The map finds each series of the list by its edge, and no other. */
  ghost predicate Indexes(series: map<Id, ArcWindowSeries>, list: seq<ArcWindowSeries>) {
    && (forall i :: 0 <= i < |list| ==> list[i].edgeId in series && series[list[i].edgeId] == list[i])
    && (forall i, j :: 0 <= i < j < |list| ==> list[i].edgeId != list[j].edgeId)
    && (forall e :: e in series ==> series[e] in list && series[e].edgeId == e)
  }

  lemma {:induction false} IndexesOneMore(series: map<Id, ArcWindowSeries>, list: seq<ArcWindowSeries>,
      arc: ArcWindowSeries)
    requires Indexes(series, list) && arc.edgeId !in series
    ensures Indexes(series[arc.edgeId := arc], list + [arc])
  {
  }

  ghost predicate HoldsSamples(s: ArcWindowSeries, entries: seq<Entry>, e: Id)
    reads s
  {
    s.flowSamples == FlowSamples(entries, e) && s.stagnationSamples == StagnationSamples(entries, e)
  }

  lemma {:induction false} SamplesAppend(entries: seq<Entry>, x: Entry, e: Id)
    ensures FlowSamples(entries + [x], e)
         == FlowSamples(entries, e) + (if FlowSample(x, e).Some? then [FlowSample(x, e).value] else [])
    ensures StagnationSamples(entries + [x], e)
         == StagnationSamples(entries, e)
            + (if StagnationSample(x, e).Some? then [StagnationSample(x, e).value] else [])
  {
    FilterMapAppend(entries, x, (y: Entry) => FlowSample(y, e));
    FilterMapAppend(entries, x, (y: Entry) => StagnationSample(y, e));
  }

  /** A score adds no sample to other edges. */
  lemma {:induction false} OtherSamples(entries: seq<Entry>, x: Entry)
    ensures forall e :: e != x.score.routeId ==>
              && FlowSamples(entries + [x], e) == FlowSamples(entries, e)
              && StagnationSamples(entries + [x], e) == StagnationSamples(entries, e)
  {
    forall e | e != x.score.routeId
      ensures FlowSamples(entries + [x], e) == FlowSamples(entries, e)
      ensures StagnationSamples(entries + [x], e) == StagnationSamples(entries, e)
    {
      SamplesAppend(entries, x, e);
    }
  }

  lemma {:induction false} NoStagnationWithoutFlow(entries: seq<Entry>, e: Id)
    ensures |FlowSamples(entries, e)| == 0 ==> |StagnationSamples(entries, e)| == 0
  {
    if |entries| > 0 {
      NoStagnationWithoutFlow(entries[..|entries| - 1], e);
    }
  }

  /** A score that is not of an edge of the graph, or not exhaustive, changes no series. */
  lemma {:induction false} SkipKeepsTracks(series: map<Id, ArcWindowSeries>, list: seq<ArcWindowSeries>,
      entries: seq<Entry>, x: Entry, edgeIds: set<Id>)
    requires Tracks(series, list, entries, edgeIds) && (x.score.routeId !in edgeIds || !x.score.exhaustive)
    ensures Tracks(series, list, entries + [x], edgeIds)
  {
    forall e | e in edgeIds
      ensures FlowSamples(entries + [x], e) == FlowSamples(entries, e)
      ensures StagnationSamples(entries + [x], e) == StagnationSamples(entries, e)
    {
      SamplesAppend(entries, x, e);
    }
  }

  /** A series is added exactly when its edge is first seen. */
  lemma {:induction false} FirstSeenAppend(series: map<Id, ArcWindowSeries>, list: seq<ArcWindowSeries>,
      entries: seq<Entry>, x: Entry, edgeIds: set<Id>)
    requires Indexes(series, list) && EdgesOf(list) == FirstSeen(entries, edgeIds)
    ensures FirstSeen(entries + [x], edgeIds) ==
            EdgesOf(list) + (if x.score.routeId in series || x.score.routeId !in edgeIds || !x.score.exhaustive then []
                             else [x.score.routeId])
  {
    assert (entries + [x])[..|entries|] == entries;
    if x.score.routeId in series {
      var i :| 0 <= i < |list| && list[i] == series[x.score.routeId];
      assert EdgesOf(list)[i] == x.score.routeId;
    }
  }

  /** Finding or adding the series of the edge. */
  method SeriesOf(series: map<Id, ArcWindowSeries>, list: seq<ArcWindowSeries>, e: Id)
    returns (series': map<Id, ArcWindowSeries>, list': seq<ArcWindowSeries>, arc: ArcWindowSeries)
    requires Indexes(series, list)
    ensures Indexes(series', list') && arc.edgeId == e && series' == series[e := arc]
    ensures if e in series then arc == series[e] && list' == list else fresh(arc) && list' == list + [arc]
    ensures e !in series ==> arc.flowSamples == [] && arc.stagnationSamples == []
    ensures forall f :: f in series && f != e ==> series[f] in list && series[f] != arc
    ensures arc in list || fresh(arc)
  {
    series', list' := series, list;
    if e in series {
      arc := series[e];
    } else {
      arc := new ArcWindowSeries(e);
      IndexesOneMore(series, list, arc);
      series', list' := series[e := arc], list + [arc];
    }
  }

  /** Appending the samples of one score to the series of its edge. */
  method AppendSamples(arc: ArcWindowSeries, x: Entry, ghost entries: seq<Entry>)
    requires HoldsSamples(arc, entries, x.score.routeId) && x.score.exhaustive
    modifies arc
    ensures HoldsSamples(arc, entries + [x], x.score.routeId)
  {
    SamplesAppend(entries, x, x.score.routeId);
    arc.flowSamples := arc.flowSamples + [TimedValue(x.at, x.score.forward + x.score.backward)];
    if x.score.stagnationScore.Some? {
      arc.stagnationSamples := arc.stagnationSamples + [TimedValue(x.at, x.score.stagnationScore.value)];
    }
  }

  lemma {:induction false} HasSamples(entries: seq<Entry>, x: Entry)
    requires x.score.exhaustive
    ensures |FlowSamples(entries + [x], x.score.routeId)| > 0
  {
    SamplesAppend(entries, x, x.score.routeId);
  }

  method Record(series: map<Id, ArcWindowSeries>, list: seq<ArcWindowSeries>, x: Entry, edgeIds: set<Id>,
      ghost entries: seq<Entry>)
    returns (series': map<Id, ArcWindowSeries>, list': seq<ArcWindowSeries>)
    requires TracksInOrder(series, list, entries, edgeIds)
    modifies list
    ensures TracksInOrder(series', list', entries + [x], edgeIds)
    ensures forall k :: 0 <= k < |list'| ==> list'[k] in list || fresh(list'[k])
  {
    FirstSeenAppend(series, list, entries, x, edgeIds);
    hide Tracks, FirstSeen, EdgesOf;
    if x.score.routeId !in edgeIds || !x.score.exhaustive {
      SkipKeepsTracks(series, list, entries, x, edgeIds);
      return series, list;
    }
    series', list' := RecordExhaustive(series, list, x, edgeIds, entries);
    if x.score.routeId !in series {
      EdgesGrow(list, list');
    }
  }

  lemma {:induction false} EdgesGrow(list: seq<ArcWindowSeries>, more: seq<ArcWindowSeries>)
    requires |more| == |list| + 1 && more[..|list|] == list
    ensures EdgesOf(more) == EdgesOf(list) + [more[|list|].edgeId]
  {
    forall i | 0 <= i < |list|
      ensures more[i] == list[i]
    {
      assert more[..|list|][i] == more[i];
    }
  }

  method RecordExhaustive(series: map<Id, ArcWindowSeries>, list: seq<ArcWindowSeries>, x: Entry, edgeIds: set<Id>,
      ghost entries: seq<Entry>)
    returns (series': map<Id, ArcWindowSeries>, list': seq<ArcWindowSeries>)
    requires Tracks(series, list, entries, edgeIds) && x.score.routeId in edgeIds && x.score.exhaustive
    modifies list
    ensures Tracks(series', list', entries + [x], edgeIds)
    ensures x.score.routeId in series ==> list' == list
    ensures x.score.routeId !in series ==> |list'| == |list| + 1 && list'[..|list|] == list
    ensures x.score.routeId !in series ==> list'[|list|].edgeId == x.score.routeId
    ensures forall k :: 0 <= k < |list'| ==> list'[k] in list || fresh(list'[k])
  {
    NoStagnationWithoutFlow(entries, x.score.routeId);
    OtherSamples(entries, x);
    HasSamples(entries, x);
    hide Indexes, FlowSamples, StagnationSamples;
    var arc;
    series', list', arc := SeriesOf(series, list, x.score.routeId);
    assert HoldsSamples(arc, entries, x.score.routeId);
    assert forall f :: f in series && f != x.score.routeId ==> HoldsSamples(series[f], entries + [x], f);
    hide HoldsSamples;
    AppendSamples(arc, x, entries);
  }

  method RecordSnapshot(series: map<Id, ArcWindowSeries>, list: seq<ArcWindowSeries>, snapshot: Snapshot,
      edgeIds: set<Id>, ghost before: seq<Entry>)
    returns (series': map<Id, ArcWindowSeries>, list': seq<ArcWindowSeries>)
    requires TracksInOrder(series, list, before, edgeIds)
    modifies list
    ensures TracksInOrder(series', list', before + EntriesOf(snapshot, snapshot.routeScores), edgeIds)
    ensures forall k :: 0 <= k < |list'| ==> list'[k] in list || fresh(list'[k])
  {
    hide TracksInOrder;
    series', list' := series, list;
    var scores := snapshot.routeScores;
    assert before + EntriesOf(snapshot, scores[..0]) == before;
    for j := 0 to |scores|
      invariant TracksInOrder(series', list', before + EntriesOf(snapshot, scores[..j]), edgeIds)
      invariant forall k :: 0 <= k < |list'| ==> list'[k] in list || fresh(list'[k])
    {
      ghost var entries := before + EntriesOf(snapshot, scores[..j]);
      var x := Entry(snapshot.windowEnd, scores[j]);
      assert before + EntriesOf(snapshot, scores[..j + 1]) == entries + [x];
      series', list' := Record(series', list', x, edgeIds, entries);
    }
    assert scores[..|scores|] == scores;
  }

  /** The number of flow samples of the given edges. */
  function SampleCount(entries: seq<Entry>, ids: seq<Id>): nat {
    if |ids| == 0 then 0 else SampleCount(entries, ids[..|ids| - 1]) + |FlowSamples(entries, ids[|ids| - 1])|
  }

  function Exhaustive(entries: seq<Entry>, edges: set<Id>): seq<Entry> {
    Filter(entries, (x: Entry) => x.score.routeId in edges && x.score.exhaustive)
  }

  function Members(ids: seq<Id>): set<Id> {
    set id | id in ids
  }

  lemma {:induction false} MembersOneMore(ids: seq<Id>, l: Id)
    ensures Members(ids + [l]) == Members(ids) + {l}
  {
  }

  /** The samples of distinct edges are as many as the exhaustive scores of these edges. */
  lemma {:induction false} CountByEdge(entries: seq<Entry>, ids: seq<Id>)
    requires forall i, j :: 0 <= i < j < |ids| ==> ids[i] != ids[j]
    ensures SampleCount(entries, ids) == |Exhaustive(entries, Members(ids))|
  {
    if |ids| == 0 {
      NoneExhaustive(entries);
      assert Members(ids) == {};
    } else {
      var rest, l := ids[..|ids| - 1], ids[|ids| - 1];
      CountByEdge(entries, rest);
      assert ids == rest + [l];
      MembersOneMore(rest, l);
      assert l !in Members(rest);
      hide Members, Exhaustive, FlowSamples;
      OneMoreEdge(entries, Members(rest), l);
    }
  }

  lemma {:induction false} NoneExhaustive(entries: seq<Entry>)
    ensures Exhaustive(entries, {}) == []
  {
    if |entries| > 0 {
      NoneExhaustive(entries[..|entries| - 1]);
    }
  }

  lemma {:induction false} OneMoreEdge(entries: seq<Entry>, edges: set<Id>, l: Id)
    requires l !in edges
    ensures |Exhaustive(entries, edges + {l})| == |Exhaustive(entries, edges)| + |FlowSamples(entries, l)|
  {
    if |entries| > 0 {
      OneMoreEdge(entries[..|entries| - 1], edges, l);
    }
  }

  lemma {:induction false} NoExhaustiveOfOthers(entries: seq<Entry>, edges: set<Id>, edgeIds: set<Id>)
    requires edges <= edgeIds && forall e :: e in edgeIds && |FlowSamples(entries, e)| > 0 ==> e in edges
    ensures Exhaustive(entries, edges) == Exhaustive(entries, edgeIds)
  {
    forall x | x in entries && x.score.routeId in edgeIds && x.score.exhaustive
      ensures x.score.routeId in edges
    {
      FilterMapMembers(entries, (y: Entry) => FlowSample(y, x.score.routeId));
      var i :| 0 <= i < |entries| && entries[i] == x;
      assert FlowSample(entries[i], x.score.routeId).Some?;
    }
    FilterAgrees(entries, (x: Entry) => x.score.routeId in edges && x.score.exhaustive,
                 (x: Entry) => x.score.routeId in edgeIds && x.score.exhaustive);
  }

  /** The entries with a stagnation. */
  function Stagnating(entries: seq<Entry>): seq<Entry> {
    Filter(entries, (x: Entry) => x.score.stagnationScore.Some?)
  }

  lemma {:induction false} StagnationsAreFlows(entries: seq<Entry>, e: Id)
    ensures |StagnationSamples(entries, e)| == |FlowSamples(Stagnating(entries), e)|
  {
    if |entries| > 0 {
      var rest, l := entries[..|entries| - 1], entries[|entries| - 1];
      StagnationsAreFlows(rest, e);
      SamplesAppend(Stagnating(rest), l, e);
    }
  }

  function FlowCount(list: seq<ArcWindowSeries>): nat
    reads list
  {
    if |list| == 0 then 0 else FlowCount(list[..|list| - 1]) + |list[|list| - 1].flowSamples|
  }

  function StagnationCount(list: seq<ArcWindowSeries>): nat
    reads list
  {
    if |list| == 0 then 0 else StagnationCount(list[..|list| - 1]) + |list[|list| - 1].stagnationSamples|
  }

  lemma {:induction false} CountSeries(list: seq<ArcWindowSeries>, entries: seq<Entry>)
    requires forall i :: 0 <= i < |list| ==> HoldsSamples(list[i], entries, list[i].edgeId)
    ensures FlowCount(list) == SampleCount(entries, EdgesOf(list))
    ensures StagnationCount(list) == SampleCount(Stagnating(entries), EdgesOf(list))
  {
    if |list| > 0 {
      var rest, l := list[..|list| - 1], list[|list| - 1];
      CountSeries(rest, entries);
      assert EdgesOf(list)[..|list| - 1] == EdgesOf(rest);
      assert HoldsSamples(list[|list| - 1], entries, l.edgeId);
      StagnationsAreFlows(entries, l.edgeId);
    }
  }

  /** The series together hold as many samples as there are exhaustive scores of edges of the graph,
      and as many stagnations as these have. */
  lemma {:induction false} SeriesHoldAllSamples(series: map<Id, ArcWindowSeries>, list: seq<ArcWindowSeries>,
      entries: seq<Entry>, edgeIds: set<Id>)
    requires Tracks(series, list, entries, edgeIds)
    ensures FlowCount(list) == |Exhaustive(entries, edgeIds)|
    ensures StagnationCount(list) == |Exhaustive(Stagnating(entries), edgeIds)|
  {
    var ids := EdgesOf(list);
    var edges := Members(ids);
    CountSeries(list, entries);
    CountByEdge(entries, ids);
    CountByEdge(Stagnating(entries), ids);
    forall e | e in series
      ensures e in edges
    {
      var i :| 0 <= i < |list| && list[i] == series[e];
      assert ids[i] == e;
    }
    forall e | e in edgeIds && |FlowSamples(Stagnating(entries), e)| > 0
      ensures |FlowSamples(entries, e)| > 0
    {
      StagnationsAreFlows(entries, e);
      NoStagnationWithoutFlow(entries, e);
    }
    NoExhaustiveOfOthers(entries, edges, edgeIds);
    NoExhaustiveOfOthers(Stagnating(entries), edges, edgeIds);
  }

  /** The flows of the edge in the history, both directions together, at the ends of their windows. */
  function FlowsSeen(history: seq<Snapshot>, e: Id): seq<TimedValue> {
    FlatMap(history, (s: Snapshot) => FilterMap(s.routeScores, (r: RouteScore) =>
      if r.routeId == e && r.exhaustive then Some(TimedValue(s.windowEnd, r.forward + r.backward)) else None))
  }

  function StagnationsSeen(history: seq<Snapshot>, e: Id): seq<TimedValue> {
    FlatMap(history, (s: Snapshot) => FilterMap(s.routeScores, (r: RouteScore) =>
      if r.routeId == e && r.exhaustive && r.stagnationScore.Some?
      then Some(TimedValue(s.windowEnd, r.stagnationScore.value)) else None))
  }

  lemma {:induction false} PickEntries<V>(s: Snapshot, scores: seq<RouteScore>, f: Entry -> Option<V>,
      g: RouteScore -> Option<V>)
    requires forall r :: f(Entry(s.windowEnd, r)) == g(r)
    ensures FilterMap(EntriesOf(s, scores), f) == FilterMap(scores, g)
  {
    if |scores| > 0 {
      PickEntries(s, scores[..|scores| - 1], f, g);
      assert EntriesOf(s, scores)[..|scores| - 1] == EntriesOf(s, scores[..|scores| - 1]);
    }
  }

  lemma {:induction false} SamplesAreSeen(history: seq<Snapshot>, e: Id)
    ensures FlowSamples(Entries(history), e) == FlowsSeen(history, e)
    ensures StagnationSamples(Entries(history), e) == StagnationsSeen(history, e)
  {
    if |history| > 0 {
      var rest, l := history[..|history| - 1], history[|history| - 1];
      SamplesAreSeen(rest, e);
      FilterMapConcat(Entries(rest), EntriesOf(l, l.routeScores), (x: Entry) => FlowSample(x, e));
      FilterMapConcat(Entries(rest), EntriesOf(l, l.routeScores), (x: Entry) => StagnationSample(x, e));
      PickEntries(l, l.routeScores, (x: Entry) => FlowSample(x, e), (r: RouteScore) =>
        if r.routeId == e && r.exhaustive then Some(TimedValue(l.windowEnd, r.forward + r.backward)) else None);
      PickEntries(l, l.routeScores, (x: Entry) => StagnationSample(x, e), (r: RouteScore) =>
        if r.routeId == e && r.exhaustive && r.stagnationScore.Some?
        then Some(TimedValue(l.windowEnd, r.stagnationScore.value)) else None);
    }
  }

  /** Each edge of the graph with flows in the history has one series, of all its flows and stagnations. */
  ghost predicate IsSeriesOf(list: seq<ArcWindowSeries>, history: seq<Snapshot>, edgeIds: set<Id>)
    reads list
  {
    && EdgesOf(list) == FirstSeen(Entries(history), edgeIds)
    && (forall i, j :: 0 <= i < j < |list| ==> list[i].edgeId != list[j].edgeId)
    && (forall e :: e in edgeIds && |FlowsSeen(history, e)| > 0 <==> exists o :: o in list && o.edgeId == e)
    && (forall o :: o in list ==>
          o.flowSamples == FlowsSeen(history, o.edgeId) && o.stagnationSamples == StagnationsSeen(history, o.edgeId))
  }

  lemma {:induction false} TracksHistory(series: map<Id, ArcWindowSeries>, list: seq<ArcWindowSeries>,
      history: seq<Snapshot>, edgeIds: set<Id>)
    requires TracksInOrder(series, list, Entries(history), edgeIds)
    ensures IsSeriesOf(list, history, edgeIds)
  {
    forall e {
      SamplesAreSeen(history, e);
    }
    hide FlowSamples, StagnationSamples, FlowsSeen, StagnationsSeen;
    forall o | o in list
      ensures o.edgeId in series && series[o.edgeId] == o
    {
      var i :| 0 <= i < |list| && list[i] == o;
    }
  }

  method WindowSeries(history: seq<Snapshot>, edgeIds: set<Id>)
    returns (series: map<Id, ArcWindowSeries>, list: seq<ArcWindowSeries>)
    ensures TracksInOrder(series, list, Entries(history), edgeIds) && IsSeriesOf(list, history, edgeIds)
    ensures FlowCount(list) == |Exhaustive(Entries(history), edgeIds)|
    ensures StagnationCount(list) == |Exhaustive(Stagnating(Entries(history)), edgeIds)|
    ensures forall o :: o in list ==> fresh(o)
  {
    series, list := map[], [];
    for i := 0 to |history|
      invariant TracksInOrder(series, list, Entries(history[..i]), edgeIds)
      invariant forall o :: o in list ==> fresh(o)
    {
      assert history[..i + 1][..i] == history[..i];
      series, list := RecordSnapshot(series, list, history[i], edgeIds, Entries(history[..i]));
    }
    assert history[..|history|] == history;
    SeriesHoldAllSamples(series, list, Entries(history), edgeIds);
    TracksHistory(series, list, history, edgeIds);
  }

  function SpanHours(d: Duration): real {
    d as real / HOUR as real
  }

  predicate Established(arc: ArcHistory) {
    arc.lastEnd - arc.firstStart >= MIN_ARC_HISTORY_SPAN
  }

  function StatOf(arc: ArcHistory): ArcHistoryStat
    requires arc.sameSensorFlow.xx >= 0.0 && arc.flow.xx >= 0.0
  {
    var long := arc.flowDwell.span >= MIN_ARC_HISTORY_SPAN;
    ArcHistoryStat(
      arc.routeId,
      SpanHours(arc.lastEnd - arc.firstStart),
      if Established(arc) then Some(arc.p90Stagnation) else None,
      if Established(arc) then Some(arc.meanStagnation) else None,
      if Established(arc) then FlowSensitivityEta(arc.sameSensorFlow, arc.flow) else None,
      if long then Some(arc.flowDwell.flowP90) else None,
      if long then arc.flowDwell.freeFlowDwellMin else None)
  }

  ghost predicate SquaresAreSums(arcs: seq<ArcHistory>) {
    forall arc :: arc in arcs ==> arc.sameSensorFlow.xx >= 0.0 && arc.flow.xx >= 0.0
  }

  function EdgesEstablished(arcs: seq<ArcHistory>, edgeIds: set<Id>): seq<Id> {
    FilterMap(arcs, (arc: ArcHistory) => if arc.routeId in edgeIds && Established(arc) then Some(arc.routeId) else None)
  }

  /** The share of the edges that have an established history. */
  function Completeness(arcs: seq<ArcHistory>, edgeIds: set<Id>): real {
    if |edgeIds| == 0 then 0.0 else |EdgesEstablished(arcs, edgeIds)| as real / |edgeIds| as real
  }

  /** The arcs that are edges of the graph, in order. */
  function OfGraph(arcs: seq<ArcHistory>, edgeIds: set<Id>): seq<ArcHistory> {
    Filter(arcs, (arc: ArcHistory) => arc.routeId in edgeIds)
  }

  lemma {:induction false} EstablishedCount(arcs: seq<ArcHistory>, edgeIds: set<Id>)
    ensures |EdgesEstablished(arcs, edgeIds)| == |Filter(arcs, (arc: ArcHistory) =>
              arc.routeId in edgeIds && arc.lastEnd - arc.firstStart >= 4 * HOUR)|
  {
    if |arcs| > 0 {
      EstablishedCount(arcs[..|arcs| - 1], edgeIds);
    }
  }

  /** The statistics of the arcs of the graph, in their order, and the share of the edges whose history
      reaches over four hours. */
  method ArcStats(arcs: seq<ArcHistory>, edgeIds: set<Id>) returns (stats: seq<ArcHistoryStat>, completeness: real)
    requires SquaresAreSums(arcs)
    ensures SquaresAreSums(OfGraph(arcs, edgeIds)) && |stats| == |OfGraph(arcs, edgeIds)|
    ensures forall i :: 0 <= i < |stats| ==> stats[i] == StatOf(OfGraph(arcs, edgeIds)[i])
    ensures completeness ==
            if edgeIds == {} then 0.0
            else |Filter(arcs, (arc: ArcHistory) =>
                    arc.routeId in edgeIds && arc.lastEnd - arc.firstStart >= 4 * HOUR)| as real / |edgeIds| as real
    ensures completeness == Completeness(arcs, edgeIds)
  {
    stats, completeness := [], 0.0;
    var established := 0;
    FilterMembers(arcs, (arc: ArcHistory) => arc.routeId in edgeIds);
    for i := 0 to |arcs|
      invariant |stats| == |OfGraph(arcs[..i], edgeIds)| && SquaresAreSums(OfGraph(arcs[..i], edgeIds))
      invariant forall k :: 0 <= k < |stats| ==> stats[k] == StatOf(OfGraph(arcs[..i], edgeIds)[k])
      invariant established == |EdgesEstablished(arcs[..i], edgeIds)|
    {
      assert arcs[..i + 1] == arcs[..i] + [arcs[i]];
      FilterAppend(arcs[..i], arcs[i], (arc: ArcHistory) => arc.routeId in edgeIds);
      FilterMapAppend(arcs[..i], arcs[i], (arc: ArcHistory) =>
        if arc.routeId in edgeIds && Established(arc) then Some(arc.routeId) else None);
      hide OfGraph, EdgesEstablished;
      if arcs[i].routeId !in edgeIds {
        continue;
      }
      assert arcs[i] in arcs;
      var stat := StatOf(arcs[i]);
      stats := stats + [stat];
      if stat.p90Stagnation.Some? {
        established := established + 1;
      }
    }
    assert arcs[..|arcs|] == arcs;
    EstablishedCount(arcs, edgeIds);
    if |edgeIds| > 0 {
      completeness := established as real / |edgeIds| as real;
    }
  }

  lemma {:induction false} DistinctInSet(ids: seq<Id>, s: set<Id>)
    requires forall i :: 0 <= i < |ids| ==> ids[i] in s
    requires forall i, j :: 0 <= i < j < |ids| ==> ids[i] != ids[j]
    ensures |ids| <= |s|
  {
    if |ids| > 0 {
      var l := ids[|ids| - 1];
      DistinctInSet(ids[..|ids| - 1], s - {l});
    }
  }

  lemma {:induction false} EstablishedAreRoutes(arcs: seq<ArcHistory>, edgeIds: set<Id>)
    requires forall i, j :: 0 <= i < j < |arcs| ==> arcs[i].routeId != arcs[j].routeId
    ensures var ids := EdgesEstablished(arcs, edgeIds);
      && (forall i :: 0 <= i < |ids| ==> ids[i] in edgeIds && exists k :: 0 <= k < |arcs| && arcs[k].routeId == ids[i])
      && (forall i, j :: 0 <= i < j < |ids| ==> ids[i] != ids[j])
  {
    if |arcs| > 0 {
      var rest := arcs[..|arcs| - 1];
      EstablishedAreRoutes(rest, edgeIds);
      var ids := EdgesEstablished(rest, edgeIds);
      forall i | 0 <= i < |ids|
        ensures ids[i] in edgeIds && (exists k :: 0 <= k < |arcs| - 1 && arcs[k].routeId == ids[i])
      {
        var k :| 0 <= k < |rest| && rest[k].routeId == ids[i];
        assert arcs[k].routeId == ids[i];
      }
    }
  }

  /** The completeness of an arc history is a share. */
  lemma {:induction false} CompletenessIsShare(arcs: seq<ArcHistory>, edgeIds: set<Id>)
    requires StrictlySorted(Routes(arcs), Before)
    ensures 0.0 <= Completeness(arcs, edgeIds) <= 1.0
  {
    forall i, j | 0 <= i < j < |arcs|
      ensures arcs[i].routeId != arcs[j].routeId
    {
      assert Before(Routes(arcs)[i], Routes(arcs)[j]);
      BeforeIrreflexive(arcs[i].routeId);
    }
    EstablishedAreRoutes(arcs, edgeIds);
    DistinctInSet(EdgesEstablished(arcs, edgeIds), edgeIds);
    if |edgeIds| > 0 {
      ShareOf(|EdgesEstablished(arcs, edgeIds)|, |edgeIds|);
    }
  }

  lemma {:induction false} ShareOf(n: nat, all: nat)
    requires n <= all && all > 0
    ensures 0.0 <= n as real / all as real <= 1.0
  {
  }

  ghost predicate ValuesInTimeOrder(samples: seq<TimedValue>) {
    forall i, j :: 0 <= i < j < |samples| ==> samples[i].at <= samples[j].at
  }

  ghost predicate EntriesInTimeOrder(entries: seq<Entry>) {
    forall i, j :: 0 <= i < j < |entries| ==> entries[i].at <= entries[j].at
  }

  lemma {:induction false} EntriesFollowHistory(history: seq<Snapshot>)
    requires forall i, j :: 0 <= i < j < |history| ==> history[i].windowEnd <= history[j].windowEnd
    ensures EntriesInTimeOrder(Entries(history))
    ensures forall i :: 0 <= i < |Entries(history)|
              ==> |history| > 0 && Entries(history)[i].at <= history[|history| - 1].windowEnd
  {
    if |history| > 0 {
      EntriesFollowHistory(history[..|history| - 1]);
    }
  }

  lemma {:induction false} SamplesFollowEntries(entries: seq<Entry>, e: Id)
    requires EntriesInTimeOrder(entries)
    ensures ValuesInTimeOrder(FlowSamples(entries, e)) && ValuesInTimeOrder(StagnationSamples(entries, e))
    ensures forall i :: 0 <= i < |FlowSamples(entries, e)|
              ==> |entries| > 0 && FlowSamples(entries, e)[i].at <= entries[|entries| - 1].at
    ensures forall i :: 0 <= i < |StagnationSamples(entries, e)| ==>
              |entries| > 0 && StagnationSamples(entries, e)[i].at <= entries[|entries| - 1].at
  {
    if |entries| > 0 {
      SamplesFollowEntries(entries[..|entries| - 1], e);
    }
  }

  /** Samples of a history in time order are in time order. */
  lemma {:induction false} SamplesInTimeOrder(history: seq<Snapshot>, e: Id)
    requires forall i, j :: 0 <= i < j < |history| ==> history[i].windowEnd <= history[j].windowEnd
    ensures ValuesInTimeOrder(FlowSamples(Entries(history), e))
    ensures ValuesInTimeOrder(StagnationSamples(Entries(history), e))
  {
    EntriesFollowHistory(history);
    SamplesFollowEntries(Entries(history), e);
  }

  lemma {:induction false} SumOfStagnations(samples: seq<ArcSample>)
    ensures SumsOf(ArcPoints(samples)).y == Sum(Stagnations(samples))
  {
    if |samples| > 0 {
      var rest := samples[..|samples| - 1];
      SumOfStagnations(rest);
      assert ArcPoints(samples)[..|samples| - 1] == ArcPoints(rest);
      assert Stagnations(samples)[..|samples| - 1] == Stagnations(rest);
    }
  }

  /** The samples reach over the shortest history that statistics are sent for. */
  ghost predicate ReachFarEnough(samples: seq<ArcSample>) {
    exists s, t :: s in samples && t in samples && t.end - s.start >= 4 * HOUR
  }

  lemma {:induction false} ExtentReaches(samples: seq<ArcSample>, first: Time, last: Time)
    requires IsExtent(samples, first, last)
    ensures last - first >= MIN_ARC_HISTORY_SPAN <==> ReachFarEnough(samples)
  {
    var s :| s in samples && s.start == first;
    var t :| t in samples && t.end == last;
    if last - first >= MIN_ARC_HISTORY_SPAN {
      assert t.end - s.start >= MIN_ARC_HISTORY_SPAN;
    }
  }

  /** The points of one unchanged sensor when there are enough of them, and all otherwise. */
  function DecidingPoints(samples: seq<ArcSample>): seq<Sample> {
    if |SameSensorPoints(samples)| >= 12 then SameSensorPoints(samples)
    else ArcPoints(samples)
  }

  /** From the first start to the last end of the samples it is that many hours. */
  ghost predicate SpansHours(samples: seq<ArcSample>, hours: real) {
    && (forall s, t :: s in samples && t in samples ==> (t.end - s.start) as real <= Times(hours, HOUR as real))
    && (exists s, t :: s in samples && t in samples && (t.end - s.start) as real == Times(hours, HOUR as real))
  }

  lemma {:induction false} ExtentSpans(samples: seq<ArcSample>, first: Time, last: Time)
    requires IsExtent(samples, first, last)
    ensures SpansHours(samples, SpanHours(last - first))
  {
    HoursTimes(last - first);
    var s :| s in samples && s.start == first;
    var t :| t in samples && t.end == last;
    assert (t.end - s.start) as real == Times(SpanHours(last - first), HOUR as real);
    hide SpanHours, Times;
  }

  lemma {:induction false} HoursTimes(d: Duration)
    ensures Times(SpanHours(d), HOUR as real) == d as real
  {
  }

  /** What is sent of an arc, said of the retained raw samples: nothing before they reach over four
      hours, and from then on the bucket of their p90, their mean, and how fast the best line falls. */
  lemma {:induction false} StatOfSamples(arc: ArcHistory, retained: seq<ArcSample>, e: real) returns (p90: real)
    requires Summarises(arc, retained)
    ensures arc.sameSensorFlow.xx >= 0.0 && arc.flow.xx >= 0.0
    ensures IsQuantile(Stagnations(retained), 0.9, p90)
    ensures var stat := StatOf(arc);
      && stat.p90Stagnation == (if ReachFarEnough(retained) then Some(Bucket(p90)) else None)
      && stat.baselineStagnation == (if ReachFarEnough(retained) then MeanOf(Stagnations(retained)) else None)
      && (stat.flowSensitivityEta == Some(e) <==>
            ReachFarEnough(retained) && HasSensitivity(DecidingPoints(retained), e))
  {
    SensitivityOfRow(arc, retained, e);
    p90 := P90OfRow(arc, retained);
    SumOfStagnations(retained);
    ExtentReaches(retained, arc.firstStart, arc.lastEnd);
    hide IsQuantile, HasSensitivity, ReachFarEnough, IsExtent, FlowSensitivityEta;
  }

  /** The span that is sent with it is theirs, from the first start to the last end. */
  lemma {:induction false} SpanOfSamples(arc: ArcHistory, retained: seq<ArcSample>)
    requires Summarises(arc, retained) && arc.sameSensorFlow.xx >= 0.0 && arc.flow.xx >= 0.0
    ensures StatOf(arc).edgeId == arc.routeId && SpansHours(retained, StatOf(arc).availableSpanHours)
  {
    ExtentSpans(retained, arc.firstStart, arc.lastEnd);
    hide SpansHours, SpanHours, IsExtent, FlowSensitivityEta;
  }

  /** What is sent of the flow and dwell of an arc, said of the retained raw samples: nothing without any
      or before they reach over four hours, and from then on the bucket of the p90 of their flows, and of
      the median dwell of those whose flow is between the quartiles. */
  lemma {:induction false} FlowStatOfSamples(arc: ArcHistory, retained: seq<ArcSample>)
    returns (p90: real, low: real, high: real, dwell: real)
    requires FlowDwellSummarises(arc.flowDwell, retained)
    requires arc.sameSensorFlow.xx >= 0.0 && arc.flow.xx >= 0.0
    ensures ReachFarEnough(retained) ==>
              && IsQuantile(Flows(retained), 0.9, p90) && IsQuantile(Flows(retained), 0.25, low)
              && IsQuantile(Flows(retained), 0.75, high)
    ensures ReachFarEnough(retained) && |Between(retained, low, high)| > 0 ==>
              IsQuantile(Dwells(Between(retained, low, high)), 0.5, dwell)
    ensures StatOf(arc).flowP90 == if ReachFarEnough(retained) then Some(Bucket(p90)) else None
    ensures StatOf(arc).freeFlowDwellMin ==
            if ReachFarEnough(retained) && |Between(retained, low, high)| > 0 then Some(Bucket(dwell)) else None
  {
    p90, low, high, dwell := 0.0, 0.0, 0.0, 0.0;
    if |retained| > 0 {
      p90 := FlowP90OfRow(arc.flowDwell, retained);
      low, high, dwell := FreeFlowDwellOfRow(arc.flowDwell, retained);
      var first, last :| IsExtent(retained, first, last) && arc.flowDwell.span == last - first;
      ExtentReaches(retained, first, last);
      hide IsExtent, ReachFarEnough, FlowSensitivityEta, FreeFlowing, MedianDwell, IsQuantile, Between, Bucket;
    }
  }
}
