/** One observation cycle as it runs against the tables, call by call. */
module CycleRuns {
  import opened Basics
  import opened Seqs
  import opened StableSort
  import opened Domain
  import opened SensorSets
  import opened ArcTables
  import opened ArcSummary
  import opened ArcHistories
  import opened Snapshots
  import opened SnapshotOrder
  import opened SnapshotClasses
  import SnapshotComposer
  import opened ObservationCycles
  import opened SnapshotRepositories

  const DAY: Duration := 24 * HOUR

  /** What a cycle reads from elsewhere, the call it stops at, and the statement at which that
      call fails when it is a transaction. */
  datatype CycleInput = CycleInput(
    id: Id,
    windowEnd: Time,
    window: Duration,
    measurements: seq<Measurement>,
    mappings: seq<ObservationPointMapping>,
    states: map<Id, ObservationPointState>,
    historyWindowDays: nat,
    answer: Answer,
    stop: Step,
    fault: nat)
  {
    function AsInputs(): Inputs {
      Inputs(windowEnd - window, windowEnd, measurements, mappings, states)
    }

    /** The cycle as a step of a run: it composes all measurements ever recorded. */
    function AsCycle(): Cycle
      requires window > 0
    {
      Cycle(windowEnd, SnapshotOf(id, AsInputs()), answer, stop)
    }

    function Since(): Time {
      windowEnd - historyWindowDays * DAY
    }

    predicate Passes(s: Step) {
      Rank(s) < Rank(stop)
    }

    function FaultAt(s: Step): Option<nat> {
      if stop == s then Some(fault) else None
    }
  }

  /** What the optimiser is asked. */
  datatype OptimizeInput = OptimizeInput(
    snapshot: Snapshot,
    gaps: Gaps,
    sensorSetChanges: seq<SensorSet>,
    history: seq<Snapshot>,
    arcHistory: seq<ArcHistory>,
    availableHistory: Duration,
    previous: Option<OptimizationOutcome>,
    serverTime: Time)

  /** The question says what the request of the cycle says. */
  ghost predicate Asks(q: OptimizeInput, r: Request) {
    && q.serverTime == r.at
    && q.previous == r.previous
    && Lists(q.sensorSetChanges, r.changes)
    && q.history == r.history
    && q.availableHistory == r.availableHistory
  }

  /** The question that a cycle which composed `result` from the tables `store` asks. */
  ghost predicate AsksFor(q: OptimizeInput, store: Store, cycle: Cycle, since: Time) {
    && Sends(store, cycle)
    && cycle.result == Composed(q.snapshot, q.gaps, cycle.result.sensors)
    && Asks(q, RequestOf(store, cycle))
    && IsArcHistory(q.arcHistory, AllSamples(store.snapshots), TrackedBy(store, cycle), since)
  }

  /** Saved snapshots are in the order of their window ends, none of which is later than `end`. */
  ghost predicate EndUpTo(snapshots: seq<Snapshot>, end: Time) {
    InTimeOrder(snapshots, SnapshotEnd) && forall i :: 0 <= i < |snapshots| ==> snapshots[i].windowEnd <= end
  }

  lemma {:induction false} SaveEndsUpTo(snapshots: seq<Snapshot>, s: Snapshot)
    requires EndUpTo(snapshots, s.windowEnd)
    ensures EndUpTo(snapshots + [s], s.windowEnd)
  {
  }

  lemma {:induction false} EndsUpToLater(snapshots: seq<Snapshot>, end: Time, later: Time)
    requires EndUpTo(snapshots, end) && end <= later
    ensures EndUpTo(snapshots, later)
  {
  }

  lemma {:induction false} ChangesAreListed(sets: seq<SensorSet>, table: SetTable, after: Time)
    requires Lists(sets, table)
    ensures Lists(ChangedAfter(sets, after), ChangesAfter(table, after))
  {
    var changed := ChangedAfter(sets, after);
    FilterMembers(sets, (s: SensorSet) => s.changedAt > after);
    FilterDistinct(sets, (s: SensorSet) => s.changedAt > after);
    forall i | 0 <= i < |changed|
      ensures changed[i].anchor in table && table[changed[i].anchor] == changed[i] && changed[i].changedAt > after
    {
      assert changed[i] in changed;
    }
    forall a | a in ChangesAfter(table, after)
      ensures exists i :: 0 <= i < |changed| && changed[i].anchor == a
    {
      var k :| 0 <= k < |sets| && sets[k].anchor == a;
      assert sets[k] in changed;
    }
  }

  lemma {:induction false} FilterDistinct(sets: seq<SensorSet>, p: SensorSet -> bool)
    requires DistinctAnchors(sets)
    ensures DistinctAnchors(Filter(sets, p))
  {
    if |sets| > 0 {
      var rest, l := sets[..|sets| - 1], sets[|sets| - 1];
      FilterDistinct(rest, p);
      FilterMembers(rest, p);
      forall i | 0 <= i < |Filter(rest, p)|
        ensures Filter(rest, p)[i].anchor != l.anchor
      {
        assert Filter(rest, p)[i] in Filter(rest, p);
        var k :| 0 <= k < |rest| && rest[k] == Filter(rest, p)[i];
        assert sets[k] == rest[k];
      }
    }
  }

  lemma {:induction false} ListedComposition(c: CycleInput, listed: seq<Measurement>, result: NewSnapshotResult)
    requires c.window > 0 && IsStableSortOf(listed, Recent(c.measurements, c.windowEnd - MAX_HOLD), EndOf)
    requires result == SnapshotOf(c.id, Inputs(c.windowEnd - c.window, c.windowEnd, listed, c.mappings, c.states))
    ensures result == c.AsCycle().result
    ensures result.Composed? ==> result.snapshot.windowEnd == c.windowEnd
  {
    hide SnapshotOf;
    EndsWithWindow(c.id, c.AsInputs());
    ListingOrderLosesNothing(c.id, c.AsInputs(),
                             Inputs(c.windowEnd - c.window, c.windowEnd, listed, c.mappings, c.states));
  }

  /** Inputs of successive cycles of one event. */
  ghost predicate Successive(inputs: seq<CycleInput>) {
    && (forall i :: 0 <= i < |inputs| ==> inputs[i].window > 0 && ZERO_TIME < inputs[i].windowEnd)
    && (forall i, j :: 0 <= i < j < |inputs| ==> inputs[i].windowEnd < inputs[j].windowEnd)
  }

  ghost function Cycles(inputs: seq<CycleInput>): (r: seq<Cycle>)
    requires forall i :: 0 <= i < |inputs| ==> inputs[i].window > 0
    ensures |r| == |inputs|
  {
    if |inputs| == 0 then [] else Cycles(inputs[..|inputs| - 1]) + [inputs[|inputs| - 1].AsCycle()]
  }

  /** Whatever they measure and wherever they stop, successive cycles make a run, so everything
      proved of runs holds of them. */
  lemma {:induction false} SuccessiveCyclesRun(inputs: seq<CycleInput>)
    requires Successive(inputs)
    ensures IsRun(Cycles(inputs))
    ensures LastEnd(Cycles(inputs)) == if |inputs| == 0 then ZERO_TIME else inputs[|inputs| - 1].windowEnd
  {
    hide SnapshotOf, WellComposed;
    if |inputs| > 0 {
      var rest, c := inputs[..|inputs| - 1], inputs[|inputs| - 1];
      SuccessiveCyclesRun(rest);
      SnapshotIsWellComposed(c.id, c.AsInputs());
      var cycles := Cycles(inputs);
      assert cycles[..|cycles| - 1] == Cycles(rest);
    }
  }

  /** What cycle k of several sends is what its step sends, after the cycles before it. */
  ghost predicate AsksInTurn(inputs: seq<CycleInput>, k: nat, sent: Option<OptimizeInput>)
    requires Successive(inputs) && k < |inputs|
  {
    var store, cycle := Exec(Cycles(inputs[..k])).store, inputs[k].AsCycle();
    && (sent.Some? <==> Sends(store, cycle))
    && (sent.Some? ==>
          AsksFor(sent.value, store, cycle, inputs[k].windowEnd - inputs[k].historyWindowDays * (24 * HOUR)))
  }

  lemma {:induction false} NextCycle(inputs: seq<CycleInput>, i: nat)
    requires Successive(inputs) && i < |inputs|
    ensures Exec(Cycles(inputs[..i + 1])).store == RunCycle(Exec(Cycles(inputs[..i])).store, inputs[i].AsCycle())
  {
    hide SnapshotOf, RunCycle;
    assert inputs[..i + 1][..i] == inputs[..i];
    var cycles := Cycles(inputs[..i + 1]);
    assert cycles[..|cycles| - 1] == Cycles(inputs[..i]);
  }

  lemma {:induction false} StopsEarly(store: Store, cycle: Cycle)
    requires !cycle.Passes(PointStates)
    ensures RunCycle(store, cycle) == store && !Sends(store, cycle)
  {
  }

  class ObservationCycle {
    const repository: SnapshotRepository

    constructor (repository: SnapshotRepository)
      ensures this.repository == repository
    {
      this.repository := repository;
    }

    /** Listing the recent measurements and composing them. */
    method Compose(c: CycleInput) returns (result: NewSnapshotResult)
      requires c.window > 0
      ensures result == c.AsCycle().result
      ensures result.Composed? ==> result.snapshot.windowEnd == c.windowEnd
    {
      hide SnapshotOf;
      var listed := ListWindowEndingSince(c.measurements, c.windowEnd - MAX_HOLD);
      result := SnapshotComposer.NewSnapshot(c.id, c.windowEnd - c.window, c.windowEnd, listed, c.mappings, c.states);
      ListedComposition(c, listed, result);
    }

    /** Listing, tracking and saving the sensor sets. */
    method Track(c: CycleInput, composed: seq<SensorSet>) returns (ok: bool, tracked: seq<SensorSet>)
      requires repository.Valid() && c.Passes(ListSensorSets)
      modifies repository
      ensures repository.Valid()
      ensures var table := old(repository.sensorSets);
              var updated := Updated(table, composed, c.windowEnd);
        && (ok <==> c.stop != SaveSensorSets && AllExclusive(updated))
        && repository.State() == old(repository.State()).(
             sensorSets := if ok then SensorSets.Track(table, composed, c.windowEnd) else table)
      ensures ok ==> Lists(tracked, repository.sensorSets)
    {
      var recorded := repository.ListSensorSets();
      ByAnchorOfList(recorded, repository.sensorSets);
      var updated;
      tracked, updated := TrackSensorSets(recorded, composed, c.windowEnd);
      SavingUpdatesTracks(repository.sensorSets, composed, c.windowEnd);
      ok := repository.SaveSensorSets(updated, c.FaultAt(SaveSensorSets));
    }

    /** The history since the sensors of each anchor last changed. */
    method History(c: CycleInput, tracked: seq<SensorSet>) returns (history: seq<Snapshot>)
      requires Lists(tracked, repository.sensorSets) && EndUpTo(repository.snapshots, c.windowEnd)
      ensures history == Trim(Filter(repository.snapshots, (s: Snapshot) => c.windowEnd - 30 * MINUTE < s.windowEnd),
                              repository.sensorSets)
      ensures history == Trim(EndingAfter(repository.snapshots, c.windowEnd - HISTORY_WINDOW), repository.sensorSets)
    {
      history := repository.ListSnapshotsEndingAfter(c.windowEnd - HISTORY_WINDOW);
      TrimByTable(history, tracked, repository.sensorSets);
      history := HistorySinceSensorSetChanges(history, tracked);
      FilterAgrees(repository.snapshots, (s: Snapshot) => c.windowEnd - 30 * MINUTE < s.windowEnd,
                   (s: Snapshot) => s.windowEnd > c.windowEnd - HISTORY_WINDOW);
    }

    /** A cycle leaves exactly what its step of the run leaves, and asks exactly what that step
        asks, wherever it stops. */
    method Run(c: CycleInput) returns (sent: Option<OptimizeInput>)
      requires repository.Valid() && c.window > 0 && EndUpTo(repository.snapshots, c.windowEnd)
      modifies repository
      ensures repository.Valid() && EndUpTo(repository.snapshots, c.windowEnd)
      ensures var composed := SnapshotOf(c.id, Inputs(c.windowEnd - c.window, c.windowEnd, c.measurements, c.mappings,
                                                      c.states));
              var cycle := Cycle(c.windowEnd, composed, c.answer, c.stop);
        && repository.State() == RunCycle(old(repository.State()), cycle)
        && (sent.Some? <==> Sends(old(repository.State()), cycle))
        && (sent.Some? ==>
              AsksFor(sent.value, old(repository.State()), cycle, c.windowEnd - c.historyWindowDays * (24 * HOUR)))
    {
      hide SnapshotOf, RunCycle, Sends, AsksFor, EndUpTo, StagnationIsRight, FlowDwellIsRight;
      if !c.Passes(PointStates) {
        StopsEarly(repository.State(), c.AsCycle());
        return None;
      }
      var result := Compose(c);
      sent := RunComposed(c, result, c.AsCycle());
    }

    /** The cycle from its composition on. */
    method RunComposed(c: CycleInput, result: NewSnapshotResult, ghost cycle: Cycle)
      returns (sent: Option<OptimizeInput>)
      requires repository.Valid() && EndUpTo(repository.snapshots, c.windowEnd)
      requires cycle == Cycle(c.windowEnd, result, c.answer, c.stop) && c.Passes(PointStates)
      requires result.Composed? ==> result.snapshot.windowEnd == c.windowEnd
      modifies repository
      ensures repository.Valid() && EndUpTo(repository.snapshots, c.windowEnd)
      ensures repository.State() == RunCycle(old(repository.State()), cycle)
      ensures sent.Some? <==> Sends(old(repository.State()), cycle)
      ensures sent.Some? ==> AsksFor(sent.value, old(repository.State()), cycle, c.Since())
    {
      if !c.Passes(ListSensorSets) || result.NilDereference? {
        return None;
      }
      ghost var store := repository.State();
      var ok, tracked := Track(c, result.sensors);
      if !ok {
        return None;
      }
      sent := RunTracked(c, result, tracked, store, cycle);
    }

    /** Putting the question together once the snapshot is saved. */
    method Ask(c: CycleInput, result: NewSnapshotResult, tracked: seq<SensorSet>, history: seq<Snapshot>,
               arcHistory: seq<ArcHistory>, available: Duration, ghost store: Store, ghost cycle: Cycle)
      returns (q: OptimizeInput)
      requires cycle == Cycle(c.windowEnd, result, c.answer, c.stop) && Sends(store, cycle)
      requires repository.snapshots == store.snapshots + [result.snapshot] && repository.outcomes == store.outcomes
      requires Lists(tracked, TrackedBy(store, cycle))
      requires history == Trim(EndingAfter(store.snapshots, c.windowEnd - HISTORY_WINDOW), TrackedBy(store, cycle))
      requires IsArcHistory(arcHistory, AllSamples(store.snapshots), TrackedBy(store, cycle), c.Since())
      requires available == AvailableSpan(store.snapshots, c.windowEnd)
      ensures AsksFor(q, store, cycle, c.Since())
    {
      hide IsArcHistory, TrimSnapshot, LatestOutcome, AllSamples;
      var latest := repository.LatestOptimizationOutcome();
      var changes := SensorSetsChangedAfter(tracked, CycleOf(latest));
      ChangesAreListed(tracked, TrackedBy(store, cycle), CycleOf(latest));
      q := OptimizeInput(result.snapshot, result.gaps, changes, history, arcHistory, available, latest,
                         c.windowEnd);
    }

    /** The cycle from saving the snapshot on. */
    method SaveAndAsk(c: CycleInput, result: NewSnapshotResult, tracked: seq<SensorSet>, history: seq<Snapshot>,
                      arcHistory: seq<ArcHistory>, available: Duration, ghost store: Store, ghost cycle: Cycle)
      returns (sent: Option<OptimizeInput>)
      requires repository.Valid() && EndUpTo(repository.snapshots, c.windowEnd)
      requires cycle == Cycle(c.windowEnd, result, c.answer, c.stop) && SavesSets(store, cycle)
      requires c.Passes(AvailableHistory)
      requires result.Composed? && result.snapshot.windowEnd == c.windowEnd
      requires repository.State() == store.(sensorSets := TrackedBy(store, cycle))
      requires Lists(tracked, repository.sensorSets)
      requires history == Trim(EndingAfter(store.snapshots, c.windowEnd - HISTORY_WINDOW), TrackedBy(store, cycle))
      requires IsArcHistory(arcHistory, AllSamples(store.snapshots), TrackedBy(store, cycle), c.Since())
      requires available == AvailableSpan(store.snapshots, c.windowEnd)
      modifies repository
      ensures repository.Valid() && EndUpTo(repository.snapshots, c.windowEnd)
      ensures repository.State() == RunCycle(store, cycle)
      ensures sent.Some? <==> Sends(store, cycle)
      ensures sent.Some? ==> AsksFor(sent.value, store, cycle, c.Since())
    {
      hide IsArcHistory, Trim, AsksFor, AllSamples, Lists, StagnationIsRight, FlowDwellIsRight, EndUpTo, SavesSets,
        TrackedBy, Taken, EndingAfter, AvailableSpan, SnapshotRepository.Valid;
      var ok := repository.SaveSnapshot(result.snapshot, c.FaultAt(SaveSnapshot));
      SaveEndsUpTo(store.snapshots, result.snapshot);
      if !ok || !c.Passes(PreviousOutcome) {
        return None;
      }
      var q := Ask(c, result, tracked, history, arcHistory, available, store, cycle);
      sent := Some(q);
      if c.Passes(Optimize) {
        var outcome := c.answer.OutcomeOf(result.snapshot.id, c.windowEnd);
        var _ := repository.SaveOptimizationOutcome(outcome, !c.Passes(SaveOutcome));
      }
    }

    /** The cycle from saving the sensor sets on. */
    method RunTracked(c: CycleInput, result: NewSnapshotResult, tracked: seq<SensorSet>, ghost store: Store,
        ghost cycle: Cycle)
      returns (sent: Option<OptimizeInput>)
      requires repository.Valid() && EndUpTo(repository.snapshots, c.windowEnd)
      requires cycle == Cycle(c.windowEnd, result, c.answer, c.stop) && SavesSets(store, cycle)
      requires result.Composed? ==> result.snapshot.windowEnd == c.windowEnd
      requires repository.State() == store.(sensorSets := TrackedBy(store, cycle))
      requires Lists(tracked, repository.sensorSets)
      modifies repository
      ensures repository.Valid() && EndUpTo(repository.snapshots, c.windowEnd)
      ensures repository.State() == RunCycle(store, cycle)
      ensures sent.Some? <==> Sends(store, cycle)
      ensures sent.Some? ==> AsksFor(sent.value, store, cycle, c.Since())
    {
      hide IsArcHistory, Trim, AsksFor, AllSamples, Lists, StagnationIsRight, FlowDwellIsRight, EndUpTo, AllExclusive,
        Updated;
      if !c.Passes(ListHistory) {
        return None;
      }
      var history := History(c, tracked);
      var arcHistory := repository.SummarizeHistory(c.Since());
      if !c.Passes(AvailableHistory) || result.NotANumber? {
        return None;
      }
      var earliest := repository.EarliestSnapshotStart();
      var available := if earliest.Some? then c.windowEnd - earliest.value else 0;
      sent := SaveAndAsk(c, result, tracked, history, arcHistory, available, store, cycle);
    }

    /** The tables are those that the first i of several cycles leave. */
    ghost predicate HasRun(inputs: seq<CycleInput>, i: nat)
      requires Successive(inputs) && i <= |inputs|
      reads repository
    {
      && repository.Valid()
      && repository.State() == Exec(Cycles(inputs[..i])).store
      && EndUpTo(repository.snapshots, if i == 0 then ZERO_TIME else inputs[i - 1].windowEnd)
    }

    method RunNext(inputs: seq<CycleInput>, i: nat) returns (sent: Option<OptimizeInput>)
      requires Successive(inputs) && i < |inputs| && HasRun(inputs, i)
      modifies repository
      ensures HasRun(inputs, i + 1)
      ensures AsksInTurn(inputs, i, sent)
    {
      hide SnapshotOf, RunCycle, Sends, AsksFor, Exec, StagnationIsRight, FlowDwellIsRight, EndUpTo;
      NextCycle(inputs, i);
      EndsUpToLater(repository.snapshots, if i == 0 then ZERO_TIME else inputs[i - 1].windowEnd, inputs[i].windowEnd);
      sent := Run(inputs[i]);
    }

    /** Successive cycles run against empty tables leave exactly what the run of their steps
        leaves, and each asks exactly what its step asks. */
    method RunAll(inputs: seq<CycleInput>) returns (sent: seq<Option<OptimizeInput>>)
      requires repository.Valid() && repository.State() == START.store && Successive(inputs)
      modifies repository
      ensures repository.Valid() && IsRun(Cycles(inputs))
      ensures repository.State() == Exec(Cycles(inputs)).store
      ensures |sent| == |inputs|
      ensures forall k :: 0 <= k < |inputs| ==> AsksInTurn(inputs, k, sent[k])
    {
      hide SnapshotOf, StagnationIsRight, FlowDwellIsRight, AsksInTurn, IsRun;
      assert HasRun(inputs, 0);
      SuccessiveCyclesRun(inputs);
      sent := RunEach(inputs);
      assert inputs[..|inputs|] == inputs;
    }

    method RunEach(inputs: seq<CycleInput>) returns (sent: seq<Option<OptimizeInput>>)
      requires Successive(inputs) && HasRun(inputs, 0)
      modifies repository
      ensures HasRun(inputs, |inputs|)
      ensures |sent| == |inputs|
      ensures forall k :: 0 <= k < |inputs| ==> AsksInTurn(inputs, k, sent[k])
    {
      hide HasRun, AsksInTurn, Successive;
      sent := [];
      for i := 0 to |inputs|
        invariant HasRun(inputs, i)
        invariant |sent| == i && forall k :: 0 <= k < i ==> AsksInTurn(inputs, k, sent[k])
      {
        var question := RunNext(inputs, i);
        sent := sent + [question];
      }
    }
  }
}
