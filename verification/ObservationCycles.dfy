/** Runs of observation cycles of one event, each of which may stop at any failing call. */
module ObservationCycles {
  import opened Basics
  import opened Seqs
  import opened Domain
  import opened SensorSets

  /** The tables of one event; the hourly arc tables are a function of the snapshots. */
  datatype Store = Store(sensorSets: SetTable, snapshots: seq<Snapshot>, outcomes: seq<OutcomeRow>)

  /** The columns of a stored outcome; feedback values have none, and the server time is read from
      the snapshot. */
  datatype OutcomeRow = OutcomeRow(
    snapshotId: Id,
    verdict: string,
    detectionState: string,
    optimizationResult: Option<string>,
    diagnostics: Option<string>)

  function OutcomeRowOf(o: OptimizationOutcome): OutcomeRow {
    OutcomeRow(o.snapshotId, o.verdict, o.detectionState, o.optimizationResult, o.diagnostics)
  }

  /** What the optimiser answers when it is asked. */
  datatype Answer = Answer(
    verdict: string,
    detectionState: string,
    optimizationResult: Option<string>,
    feedbackValues: Option<string>,
    diagnostics: Option<string>)
  {
    function OutcomeOf(snapshotId: Id, serverTime: Time): OptimizationOutcome {
      OptimizationOutcome(snapshotId, serverTime, verdict, detectionState, optimizationResult, feedbackValues,
                          diagnostics)
    }
  }

  /** The calls of a cycle that can fail, in order; Complete means that none did. */
  datatype Step =
    | CurrentGraph | PointMappings | QrLocations | Measurements | PointStates | NewSnapshot
    | ListSensorSets | SaveSensorSets | Settings | ListHistory | ArcHistory | AvailableHistory
    | SaveSnapshot | GuestStatus | PreviousOutcome | Optimize | SaveOutcome | Complete

  function Rank(s: Step): nat {
    match s
    case CurrentGraph => 0
    case PointMappings => 1
    case QrLocations => 2
    case Measurements => 3
    case PointStates => 4
    case NewSnapshot => 5
    case ListSensorSets => 6
    case SaveSensorSets => 7
    case Settings => 8
    case ListHistory => 9
    case ArcHistory => 10
    case AvailableHistory => 11
    case SaveSnapshot => 12
    case GuestStatus => 13
    case PreviousOutcome => 14
    case Optimize => 15
    case SaveOutcome => 16
    case Complete => 17
  }

  /** A cycle that ends at `windowEnd`, composes `result`, is given `answer` when it asks, and stops
      at the failing call `stop`. */
  datatype Cycle = Cycle(windowEnd: Time, result: NewSnapshotResult, answer: Answer, stop: Step) {
    predicate Passes(s: Step) {
      Rank(s) < Rank(stop)
    }
  }

  const HISTORY_WINDOW: Duration := 30 * MINUTE

  /** The sensor sets that one cycle saved. */
  datatype Composition = Composition(at: Time, sets: map<GraphAnchor, seq<Id>>)

  /** What a cycle asks the optimiser about sensor changes and history. */
  datatype Request = Request(
    at: Time,
    previousCycle: Time,
    previous: Option<OptimizationOutcome>,
    changes: SetTable,
    history: seq<Snapshot>,
    availableHistory: Duration)

  /** The store together with what led to it: every saved composition, and the requests whose
      outcome was stored, with these outcomes. */
  datatype Trace = Trace(
    store: Store,
    log: seq<Composition>,
    served: seq<Request>,
    answered: seq<OptimizationOutcome>,
    lastEnd: Time)

  const START := Trace(Store(map[], [], []), [], [], [], ZERO_TIME)

  predicate Taken(snapshots: seq<Snapshot>, id: Id) {
    exists i :: 0 <= i < |snapshots| && snapshots[i].id == id
  }

  predicate AllExclusive(sets: seq<SensorSet>) {
    forall i :: 0 <= i < |sets| ==> Exclusive(sets[i].anchor)
  }

  function WindowEndOf(snapshots: seq<Snapshot>, id: Id): Option<Time> {
    if |snapshots| == 0 then None
    else if snapshots[|snapshots| - 1].id == id then Some(snapshots[|snapshots| - 1].windowEnd)
    else WindowEndOf(snapshots[..|snapshots| - 1], id)
  }

  /** The latest outcome whose snapshot is stored, with the window end of that snapshot. */
  function LatestOutcome(snapshots: seq<Snapshot>, outcomes: seq<OutcomeRow>): Option<OptimizationOutcome> {
    if |outcomes| == 0 then None
    else
      var row := outcomes[|outcomes| - 1];
      match WindowEndOf(snapshots, row.snapshotId)
      case Some(w) => Some(ReadOutcome(row, w))
      case None => LatestOutcome(snapshots, outcomes[..|outcomes| - 1])
  }

  function ReadOutcome(row: OutcomeRow, serverTime: Time): OptimizationOutcome {
    OptimizationOutcome(row.snapshotId, serverTime, row.verdict, row.detectionState, row.optimizationResult, None,
                        row.diagnostics)
  }

  /** The server time of the previous outcome, or zero. */
  function CycleOf(previous: Option<OptimizationOutcome>): Time {
    match previous
    case None => ZERO_TIME
    case Some(o) => o.serverTime
  }

  /** When the earliest window of the snapshots started. */
  function EarliestStart(snapshots: seq<Snapshot>): Option<Time> {
    if |snapshots| == 0 then None
    else
      var l := snapshots[|snapshots| - 1];
      match EarliestStart(snapshots[..|snapshots| - 1])
      case None => Some(l.windowStart)
      case Some(t) => Some(if l.windowStart < t then l.windowStart else t)
  }

  /** How far back the snapshots reach. */
  function AvailableSpan(snapshots: seq<Snapshot>, now: Time): Duration {
    match EarliestStart(snapshots)
    case None => 0
    case Some(t) => now - t
  }

  /** The available history is the longest time since any snapshot started, and zero without one. */
  lemma {:induction false} AvailableSpanMeans(snapshots: seq<Snapshot>, now: Time)
    ensures |snapshots| == 0 ==> AvailableSpan(snapshots, now) == 0
    ensures |snapshots| > 0 ==> exists s :: s in snapshots && now - s.windowStart == AvailableSpan(snapshots, now)
    ensures forall s :: s in snapshots ==> now - s.windowStart <= AvailableSpan(snapshots, now)
  {
    if |snapshots| > 0 {
      var rest, l := snapshots[..|snapshots| - 1], snapshots[|snapshots| - 1];
      assert snapshots == rest + [l];
      AvailableSpanMeans(rest, now);
      if EarliestStart(rest) == None {
        NoStart(rest);
      } else if l.windowStart >= EarliestStart(rest).value {
        var s :| s in rest && now - s.windowStart == AvailableSpan(rest, now);
        assert s in snapshots;
      }
    }
  }

  lemma {:induction false} NoStart(snapshots: seq<Snapshot>)
    ensures EarliestStart(snapshots) == None ==> snapshots == []
  {
  }

  function EndingAfter(snapshots: seq<Snapshot>, after: Time): seq<Snapshot> {
    Filter(snapshots, (s: Snapshot) => s.windowEnd > after)
  }

  function ChangesAfter(table: SetTable, after: Time): SetTable {
    map a | a in table && table[a].changedAt > after :: table[a]
  }

  predicate SavesSets(store: Store, c: Cycle) {
    && c.Passes(SaveSensorSets)
    && !c.result.NilDereference?
    && AllExclusive(Updated(store.sensorSets, c.result.sensors, c.windowEnd))
  }

  predicate Saves(store: Store, c: Cycle) {
    SavesSets(store, c) && c.Passes(SaveSnapshot) && c.result.Composed? && !Taken(store.snapshots, c.result.snapshot.id)
  }

  /** The cycle gets as far as calling the optimiser. */
  predicate Sends(store: Store, c: Cycle) {
    Saves(store, c) && c.Passes(PreviousOutcome)
  }

  function TrackedBy(store: Store, c: Cycle): SetTable
    requires SavesSets(store, c)
  {
    Track(store.sensorSets, c.result.sensors, c.windowEnd)
  }

  function RequestOf(store: Store, c: Cycle): Request
    requires Sends(store, c)
  {
    var tracked := TrackedBy(store, c);
    var previous := LatestOutcome(store.snapshots + [c.result.snapshot], store.outcomes);
    Request(c.windowEnd, CycleOf(previous), previous, ChangesAfter(tracked, CycleOf(previous)),
            Trim(EndingAfter(store.snapshots, c.windowEnd - HISTORY_WINDOW), tracked),
            AvailableSpan(store.snapshots, c.windowEnd))
  }

  /** What the optimiser answers a cycle that asks it. */
  function Answered(c: Cycle): OptimizationOutcome
    requires c.result.Composed?
  {
    c.answer.OutcomeOf(c.result.snapshot.id, c.windowEnd)
  }

  /** What one cycle leaves in the store. */
  function RunCycle(store: Store, c: Cycle): Store {
    if !SavesSets(store, c) then store
    else
      var saved := store.(sensorSets := TrackedBy(store, c));
      if !Saves(store, c) then saved
      else
        var snapshots := store.snapshots + [c.result.snapshot];
        if !c.Passes(SaveOutcome) then saved.(snapshots := snapshots)
        else saved.(snapshots := snapshots, outcomes := store.outcomes + [OutcomeRowOf(Answered(c))])
  }

  function Advance(t: Trace, c: Cycle): Trace {
    Trace(
      RunCycle(t.store, c),
      if SavesSets(t.store, c) then t.log + [Composition(c.windowEnd, IdsByAnchor(c.result.sensors))] else t.log,
      if Sends(t.store, c) && c.Passes(SaveOutcome) then t.served + [RequestOf(t.store, c)] else t.served,
      if Sends(t.store, c) && c.Passes(SaveOutcome) then t.answered + [Answered(c)] else t.answered,
      c.windowEnd)
  }

  function Exec(cycles: seq<Cycle>): Trace {
    if |cycles| == 0 then START else Advance(Exec(cycles[..|cycles| - 1]), cycles[|cycles| - 1])
  }

  /** A run: window ends increase strictly, and every composition is well formed. */
  ghost predicate IsRun(cycles: seq<Cycle>) {
    |cycles| > 0 ==>
      var rest, c := cycles[..|cycles| - 1], cycles[|cycles| - 1];
      IsRun(rest) && LastEnd(rest) < c.windowEnd && WellComposed(c.result, c.windowEnd)
  }

  function LastEnd(cycles: seq<Cycle>): Time {
    if |cycles| == 0 then ZERO_TIME else cycles[|cycles| - 1].windowEnd
  }

  /** The sensors an anchor was last composed from. */
  function Latest(log: seq<Composition>, a: GraphAnchor): Option<seq<Id>> {
    if |log| == 0 then None
    else if a in log[|log| - 1].sets then Some(log[|log| - 1].sets[a])
    else Latest(log[..|log| - 1], a)
  }

  /** Composition j uses other sensors for the anchor than the composition before it did. */
  predicate IsChange(log: seq<Composition>, a: GraphAnchor, j: int)
    requires 0 <= j < |log|
  {
    && a in log[j].sets
    && Latest(log[..j], a).Some?
    && Latest(log[..j], a).value != log[j].sets[a]
  }

  /** When the sensors of the anchor last changed, or zero. */
  function LastChange(log: seq<Composition>, a: GraphAnchor): Time {
    if |log| == 0 then ZERO_TIME
    else if IsChange(log, a, |log| - 1) then log[|log| - 1].at
    else LastChange(log[..|log| - 1], a)
  }

  ghost predicate Ordered(log: seq<Composition>) {
    && (forall i :: 0 <= i < |log| ==> log[i].at > ZERO_TIME)
    && (forall i, j :: 0 <= i < j < |log| ==> log[i].at < log[j].at)
  }

  /** The table records, for each anchor ever composed, its latest sensors and their last change. */
  ghost predicate TableIsLog(table: SetTable, log: seq<Composition>) {
    forall a :: EntryIsLog(table, log, a)
  }

  ghost predicate EntryIsLog(table: SetTable, log: seq<Composition>, a: GraphAnchor) {
    && (a in table <==> Latest(log, a).Some?)
    && (a in table ==> Exclusive(a) && table[a] == SensorSet(a, Latest(log, a).value, LastChange(log, a)))
  }

  /** The anchors that a snapshot scores. */
  ghost predicate Scores(s: Snapshot, a: GraphAnchor) {
    || (exists p :: p in s.pointScores && a == PointAnchor(p.pointId))
    || (exists r :: r in s.routeScores && a == RouteAnchor(r.routeId))
  }

  /** Composition i is the one that the snapshot was composed in. */
  ghost predicate ComposedIn(log: seq<Composition>, s: Snapshot, i: int) {
    && 0 <= i < |log|
    && log[i].at == s.windowEnd
    && s.windowStart < s.windowEnd
    && forall a :: Scores(s, a) ==> a in log[i].sets
  }

  ghost predicate Logged(log: seq<Composition>, s: Snapshot) {
    exists i :: ComposedIn(log, s, i)
  }

  /** The sensors of the anchor changed in (lo, hi]. */
  ghost predicate ChangedBetween(log: seq<Composition>, a: GraphAnchor, lo: Time, hi: Time) {
    exists j :: 0 <= j < |log| && IsChange(log, a, j) && lo < log[j].at <= hi
  }

  /** `s` is the last change of the anchor up to `hi`. */
  ghost predicate IsLatestChange(log: seq<Composition>, a: GraphAnchor, hi: Time, s: SensorSet) {
    exists j :: 0 <= j < |log| && IsLatestChangeAt(log, a, hi, s, j)
  }

  ghost predicate IsLatestChangeAt(log: seq<Composition>, a: GraphAnchor, hi: Time, s: SensorSet, j: int)
    requires 0 <= j < |log|
  {
    && IsChange(log, a, j) && log[j].at <= hi
    && s.anchor == a && s.changedAt == log[j].at && s.pointIds == log[j].sets[a]
    && forall k :: j < k < |log| && IsChange(log, a, k) ==> hi < log[k].at
  }

  /** A request announces exactly the anchors that changed since the previous cycle that the
      optimiser served, each with its latest change. */
  ghost predicate AnnouncesChanges(log: seq<Composition>, r: Request) {
    forall a ::
      && (a in r.changes <==> ChangedBetween(log, a, r.previousCycle, r.at))
      && (a in r.changes ==> IsLatestChange(log, a, r.at, r.changes[a]))
  }

  ghost predicate Inv(t: Trace) {
    && t.lastEnd >= ZERO_TIME
    && Ordered(t.log) && (forall i :: 0 <= i < |t.log| ==> t.log[i].at <= t.lastEnd)
    && TableIsLog(t.store.sensorSets, t.log)
    && (forall i :: 0 <= i < |t.store.snapshots| ==> Logged(t.log, t.store.snapshots[i]))
    && ServedInv(t)
  }

  /** Stored outcomes belong to served requests, which chain from each to the next. */
  ghost predicate ServedInv(t: Trace) {
    && StoresAnswers(t)
    && Chains(t.served)
    && (forall k :: 0 <= k < |t.served| ==> t.served[k].at <= t.lastEnd)
    && (forall k :: 0 <= k < |t.served| ==> AnnouncesChanges(t.log, t.served[k]))
  }

  /** The stored outcomes are those answered to the served requests, each with its snapshot. */
  ghost predicate StoresAnswers(t: Trace) {
    && |t.served| == |t.answered| == |t.store.outcomes|
    && forall k :: 0 <= k < |t.served| ==> StoresAnswer(t.store, t.store.outcomes[k], t.served[k], t.answered[k])
  }

  ghost predicate StoresAnswer(store: Store, row: OutcomeRow, r: Request, o: OptimizationOutcome) {
    && row == OutcomeRowOf(o) && o.serverTime == r.at
    && WindowEndOf(store.snapshots, o.snapshotId) == Some(r.at)
  }

  ghost predicate Chains(served: seq<Request>) {
    forall k :: 0 <= k < |served| ==> served[k].previousCycle == LastServed(served[..k]) < served[k].at
  }

  /** When the last of the served requests was sent, or zero. */
  function LastServed(served: seq<Request>): Time {
    if |served| == 0 then ZERO_TIME else served[|served| - 1].at
  }

  /** Appending a composition leaves the changes before it as they were. */
  lemma {:induction false} ChangesKept(log: seq<Composition>, c: Composition, a: GraphAnchor, j: int)
    requires 0 <= j < |log|
    ensures IsChange(log + [c], a, j) <==> IsChange(log, a, j)
  {
    assert (log + [c])[..j] == log[..j];
  }

  lemma {:induction false} LatestAppend(log: seq<Composition>, c: Composition, a: GraphAnchor)
    ensures Latest(log + [c], a) == if a in c.sets then Some(c.sets[a]) else Latest(log, a)
    ensures LastChange(log + [c], a)
         == if a in c.sets && Latest(log, a).Some? && Latest(log, a).value != c.sets[a]
            then c.at else LastChange(log, a)
  {
    assert (log + [c])[..|log|] == log;
  }

  /** Composition j is the last change of the anchor, and composed it from its latest sensors. */
  ghost predicate IsLastChange(log: seq<Composition>, a: GraphAnchor, j: int)
    requires 0 <= j < |log|
  {
    IsChange(log, a, j) && log[j].at == LastChange(log, a) && Latest(log, a) == Some(log[j].sets[a])
  }

  /** The last change is a change, and it is the last. */
  lemma {:induction false} LastChangeMeans(log: seq<Composition>, a: GraphAnchor)
    requires Ordered(log)
    ensures LastChange(log, a) >= ZERO_TIME
    ensures LastChange(log, a) != ZERO_TIME ==> exists j :: 0 <= j < |log| && IsLastChange(log, a, j)
    ensures forall j :: 0 <= j < |log| && IsChange(log, a, j) ==> log[j].at <= LastChange(log, a)
  {
    if |log| > 0 {
      var rest, l := log[..|log| - 1], log[|log| - 1];
      assert log == rest + [l];
      LastChangeMeans(rest, a);
      LastChangeStep(rest, l, a);
      hide IsChange, LastChange, Latest, IsLastChange;
      forall j | 0 <= j < |rest|
        ensures IsChange(log, a, j) <==> IsChange(rest, a, j)
      {
        ChangesKept(rest, l, a, j);
      }
      if !IsChange(log, a, |rest|) && LastChange(log, a) != ZERO_TIME {
        var j :| 0 <= j < |rest| && IsLastChange(rest, a, j);
        LastChangeStays(rest, l, a, j);
      }
    }
  }

  lemma {:induction false} LastChangeStep(rest: seq<Composition>, l: Composition, a: GraphAnchor)
    ensures LastChange(rest + [l], a) == if IsChange(rest + [l], a, |rest|) then l.at else LastChange(rest, a)
    ensures IsChange(rest + [l], a, |rest|) ==> IsLastChange(rest + [l], a, |rest|)
  {
    LatestAppend(rest, l, a);
    assert (rest + [l])[..|rest|] == rest;
  }

  lemma {:induction false} LastChangeStays(rest: seq<Composition>, l: Composition, a: GraphAnchor, j: int)
    requires 0 <= j < |rest| && IsLastChange(rest, a, j) && !IsChange(rest + [l], a, |rest|)
    ensures IsLastChange(rest + [l], a, j)
  {
    LatestAppend(rest, l, a);
    LastChangeStep(rest, l, a);
    ChangesKept(rest, l, a, j);
    assert (rest + [l])[..|rest|] == rest;
  }

  /** An anchor composed at i is unchanged since then exactly when every later composition of
      it uses the same sensors. */
  lemma {:induction false} UnchangedSince(log: seq<Composition>, a: GraphAnchor, i: int)
    requires Ordered(log) && 0 <= i < |log| && a in log[i].sets
    ensures LastChange(log, a) <= log[i].at
       <==> forall j :: i <= j < |log| && a in log[j].sets ==> log[j].sets[a] == log[i].sets[a]
    ensures Latest(log, a).Some?
    ensures LastChange(log, a) <= log[i].at ==> Latest(log, a) == Some(log[i].sets[a])
  {
    var rest, l := log[..|log| - 1], log[|log| - 1];
    assert log == rest + [l];
    LatestAppend(rest, l, a);
    LastChangeMeans(rest, a);
    if i < |rest| {
      UnchangedSince(rest, a, i);
      assert rest[i] == log[i];
      assert forall j :: i <= j < |rest| ==> rest[j] == log[j];
    } else {
      if LastChange(rest, a) != ZERO_TIME {
        var j :| 0 <= j < |rest| && IsLastChange(rest, a, j);
        assert log[j].at < log[i].at;
      }
    }
  }

  /** Saving a composition keeps the table in step with the log. */
  lemma {:induction false} SavedSetsAreLogged(t: Trace, c: Cycle)
    requires Inv(t) && SavesSets(t.store, c) && DistinctAnchors(c.result.sensors)
    ensures TableIsLog(TrackedBy(t.store, c), t.log + [Composition(c.windowEnd, IdsByAnchor(c.result.sensors))])
  {
    var table, tracked := t.store.sensorSets, TrackedBy(t.store, c);
    var entry := Composition(c.windowEnd, IdsByAnchor(c.result.sensors));
    forall a
      ensures EntryIsLog(tracked, t.log + [entry], a)
    {
      assert EntryIsLog(table, t.log, a);
      LatestAppend(t.log, entry, a);
      TrackPointwise(table, c.result.sensors, c.windowEnd, a);
      assert TrackedEntry(table, entry.sets, c.windowEnd, tracked, a);
      if a in tracked {
        TrackedIsExclusive(t, c, a);
      }
      if a in entry.sets && a !in table {
        NoChangeWithoutEntry(t.log, a);
      }
    }
  }

  lemma {:induction false} NoChangeWithoutEntry(log: seq<Composition>, a: GraphAnchor)
    requires Latest(log, a) == None
    ensures LastChange(log, a) == ZERO_TIME
  {
    if |log| > 0 {
      NoChangeWithoutEntry(log[..|log| - 1], a);
    }
  }

  lemma {:induction false} TrackedIsExclusive(t: Trace, c: Cycle, a: GraphAnchor)
    requires Inv(t) && SavesSets(t.store, c) && a in TrackedBy(t.store, c)
    ensures Exclusive(a)
  {
    var updated := Updated(t.store.sensorSets, c.result.sensors, c.windowEnd);
    SavingUpdatesTracks(t.store.sensorSets, c.result.sensors, c.windowEnd);
    assert EntryIsLog(t.store.sensorSets, t.log, a);
    if a !in t.store.sensorSets {
      UpsertedAnchors(t.store.sensorSets, updated, a);
      var i :| 0 <= i < |updated| && updated[i].anchor == a;
      assert Exclusive(updated[i].anchor);
    }
  }

  /** A saved snapshot scores only anchors that its composition recorded. */
  lemma {:induction false} SavedSnapshotIsLogged(t: Trace, c: Cycle)
    requires Inv(t) && Saves(t.store, c) && WellComposed(c.result, c.windowEnd)
    ensures Logged(t.log + [Composition(c.windowEnd, IdsByAnchor(c.result.sensors))], c.result.snapshot)
  {
    var sensors, s := c.result.sensors, c.result.snapshot;
    var log := t.log + [Composition(c.windowEnd, IdsByAnchor(sensors))];
    forall a | Scores(s, a)
      ensures a in IdsByAnchor(sensors)
    {
      IdsByAnchorDomain(sensors, a);
      if r :| r in s.routeScores && a == RouteAnchor(r.routeId) {
        var i :| 0 <= i < |sensors| && sensors[i].anchor.routeId == r.routeId;
        IdsByAnchorDomain(sensors, sensors[i].anchor);
        TrackPointwise(t.store.sensorSets, sensors, c.windowEnd, sensors[i].anchor);
        TrackedIsExclusive(t, c, sensors[i].anchor);
        assert sensors[i].anchor == a;
      } else {
        var p :| p in s.pointScores && a == PointAnchor(p.pointId);
        assert HasSet(sensors, p.pointId, "");
      }
    }
    assert ComposedIn(log, s, |t.log|);
  }

  /** Snapshots stay logged when the log grows. */
  lemma {:induction false} StaysLogged(log: seq<Composition>, c: Composition, s: Snapshot)
    requires Logged(log, s)
    ensures Logged(log + [c], s)
  {
    var i :| ComposedIn(log, s, i);
    assert ComposedIn(log + [c], s, i);
  }

  lemma {:induction false} WindowEndStays(snapshots: seq<Snapshot>, s: Snapshot, id: Id)
    requires !Taken(snapshots, s.id)
    ensures WindowEndOf(snapshots, id).Some? ==> WindowEndOf(snapshots + [s], id) == WindowEndOf(snapshots, id)
    ensures WindowEndOf(snapshots + [s], s.id) == Some(s.windowEnd)
  {
    assert (snapshots + [s])[..|snapshots|] == snapshots;
    if s.id == id {
      NotFound(snapshots, id);
    }
  }

  lemma {:induction false} NotFound(snapshots: seq<Snapshot>, id: Id)
    requires !Taken(snapshots, id)
    ensures WindowEndOf(snapshots, id) == None
  {
    if |snapshots| > 0 {
      var rest := snapshots[..|snapshots| - 1];
      assert forall i :: 0 <= i < |rest| ==> rest[i] == snapshots[i];
      NotFound(rest, id);
    }
  }

  /** The changes a request announces are those logged since the previous served cycle. */
  lemma {:induction false} TableAnnouncesChanges(table: SetTable, log: seq<Composition>, previous: Time, r: Request)
    requires Ordered(log) && TableIsLog(table, log) && previous >= ZERO_TIME
    requires forall i :: 0 <= i < |log| ==> log[i].at <= r.at
    requires r.previousCycle == previous && r.changes == ChangesAfter(table, previous)
    ensures AnnouncesChanges(log, r)
  {
    forall a
      ensures a in r.changes <==> ChangedBetween(log, a, previous, r.at)
      ensures a in r.changes ==> IsLatestChange(log, a, r.at, r.changes[a])
    {
      assert EntryIsLog(table, log, a);
      LastChangeMeans(log, a);
      if Latest(log, a) == None {
        NoChangeWithoutEntry(log, a);
      }
      if a in r.changes {
        var j :| 0 <= j < |log| && IsLastChange(log, a, j);
        assert IsLatestChangeAt(log, a, r.at, r.changes[a], j);
      }
    }
  }

  /** An announcement stays right when later compositions are logged. */
  lemma {:induction false} AnnouncementStays(log: seq<Composition>, c: Composition, r: Request)
    requires AnnouncesChanges(log, r) && r.at < c.at
    ensures AnnouncesChanges(log + [c], r)
  {
    hide IsChange;
    var log' := log + [c];
    forall a
      ensures a in r.changes <==> ChangedBetween(log', a, r.previousCycle, r.at)
      ensures a in r.changes ==> IsLatestChange(log', a, r.at, r.changes[a])
    {
      forall j | 0 <= j < |log|
        ensures IsChange(log', a, j) <==> IsChange(log, a, j)
      {
        ChangesKept(log, c, a, j);
      }
      if a in r.changes {
        var j :| 0 <= j < |log| && IsLatestChangeAt(log, a, r.at, r.changes[a], j);
        assert IsLatestChangeAt(log', a, r.at, r.changes[a], j);
        var k :| 0 <= k < |log| && IsChange(log, a, k) && r.previousCycle < log[k].at <= r.at;
        assert IsChange(log', a, k) && log'[k].at == log[k].at;
      }
      if ChangedBetween(log', a, r.previousCycle, r.at) {
        var k :| 0 <= k < |log'| && IsChange(log', a, k) && r.previousCycle < log'[k].at <= r.at;
        assert IsChange(log, a, k);
      }
    }
  }

  /** One cycle, stopped anywhere, keeps the invariant. */
  lemma {:induction false} AdvanceKeepsInv(t: Trace, c: Cycle)
    requires Inv(t) && WellComposed(c.result, c.windowEnd) && t.lastEnd < c.windowEnd
    ensures Inv(Advance(t, c))
  {
    hide TableIsLog, Logged, ServedInv, Updated, Track, HasSet, HasRouteSet;
    if SavesSets(t.store, c) {
      SavedSetsAreLogged(t, c);
      SnapshotsStayLogged(t, c);
      ServedStays(t, c);
    } else {
      ServedLater(t, c.windowEnd);
      assert Advance(t, c) == t.(lastEnd := c.windowEnd);
    }
  }

  lemma {:induction false} ServedLater(t: Trace, end: Time)
    requires ServedInv(t) && t.lastEnd <= end
    ensures ServedInv(t.(lastEnd := end))
  {
    hide AnnouncesChanges, Chains;
  }

  lemma {:induction false} SnapshotsStayLogged(t: Trace, c: Cycle)
    requires Inv(t) && WellComposed(c.result, c.windowEnd) && SavesSets(t.store, c)
    ensures var t' := Advance(t, c);
      forall i :: 0 <= i < |t'.store.snapshots| ==> Logged(t'.log, t'.store.snapshots[i])
  {
    hide TableIsLog, ServedInv, Updated, Track, HasSet, HasRouteSet;
    var entry := Composition(c.windowEnd, IdsByAnchor(c.result.sensors));
    forall i | 0 <= i < |t.store.snapshots|
      ensures Logged(t.log + [entry], t.store.snapshots[i])
    {
      StaysLogged(t.log, entry, t.store.snapshots[i]);
    }
    if Saves(t.store, c) {
      SavedSnapshotIsLogged(t, c);
    }
    hide Logged;
  }

  lemma {:induction false} ServedStays(t: Trace, c: Cycle)
    requires Inv(t) && WellComposed(c.result, c.windowEnd) && t.lastEnd < c.windowEnd
    requires SavesSets(t.store, c)
    ensures ServedInv(Advance(t, c))
  {
    hide StoresAnswers, AnnouncesChanges, TableIsLog, Logged, WellComposed, Updated, Track, Ordered, Chains,
      LatestOutcome;
    AnswersStay(t, c);
    AnnouncementsStay(t, c);
    if Sends(t.store, c) && c.Passes(SaveOutcome) {
      SentRequest(t, c);
      LastServedInTime(t);
      ChainsAppend(t.served, RequestOf(t.store, c));
    }
  }

  lemma {:induction false} AnnouncementsStay(t: Trace, c: Cycle)
    requires ServedInv(t) && t.lastEnd < c.windowEnd && SavesSets(t.store, c)
    ensures forall k :: 0 <= k < |t.served| ==> AnnouncesChanges(Advance(t, c).log, t.served[k])
  {
    hide StoresAnswers, AnnouncesChanges, Updated, Track;
    forall k | 0 <= k < |t.served|
      ensures AnnouncesChanges(Advance(t, c).log, t.served[k])
    {
      AnnouncementStays(t.log, Composition(c.windowEnd, IdsByAnchor(c.result.sensors)), t.served[k]);
    }
  }

  lemma {:induction false} AnswersStay(t: Trace, c: Cycle)
    requires StoresAnswers(t) && WellComposed(c.result, c.windowEnd) && SavesSets(t.store, c)
    ensures StoresAnswers(Advance(t, c))
  {
    hide Updated, Track, DistinctAnchors;
    var t' := Advance(t, c);
    forall k | 0 <= k < |t.served|
      ensures StoresAnswer(t'.store, t.store.outcomes[k], t.served[k], t.answered[k])
    {
      if Saves(t.store, c) {
        WindowEndStays(t.store.snapshots, c.result.snapshot, t.answered[k].snapshotId);
      }
    }
    if Sends(t.store, c) && c.Passes(SaveOutcome) {
      WindowEndStays(t.store.snapshots, c.result.snapshot, c.result.snapshot.id);
      assert StoresAnswer(t'.store, OutcomeRowOf(Answered(c)), RequestOf(t.store, c), Answered(c));
    }
  }

  lemma {:induction false} ChainsAppend(served: seq<Request>, r: Request)
    requires Chains(served) && r.previousCycle == LastServed(served) < r.at
    ensures Chains(served + [r])
  {
    forall k | 0 <= k < |served + [r]|
      ensures (served + [r])[k].previousCycle == LastServed((served + [r])[..k]) < (served + [r])[k].at
    {
      assert k < |served| ==> (served + [r])[..k] == served[..k];
      assert k == |served| ==> (served + [r])[..k] == served;
    }
  }

  lemma {:induction false} LastServedInTime(t: Trace)
    requires ServedInv(t) && t.lastEnd >= ZERO_TIME
    ensures ZERO_TIME <= LastServed(t.served) <= t.lastEnd
  {
    ChainIsPositive(t.served, |t.served|);
  }

  lemma {:induction false} ChainIsPositive(served: seq<Request>, k: nat)
    requires Chains(served) && k <= |served|
    ensures LastServed(served[..k]) >= ZERO_TIME
    ensures k > 0 ==> LastServed(served[..k]) == served[k - 1].at
  {
    assert served[..|served|] == served;
    if k > 0 {
      ChainIsPositive(served, k - 1);
    }
  }

  /** The outcome of the last served request, as it is read back: all but its feedback values. */
  function LastAnswer(answered: seq<OptimizationOutcome>): Option<OptimizationOutcome> {
    if |answered| == 0 then None else Some(answered[|answered| - 1].(feedbackValues := None))
  }

  lemma {:induction false} LatestIsLastAnswer(t: Trace, s: Snapshot)
    requires StoresAnswers(t) && !Taken(t.store.snapshots, s.id)
    ensures LatestOutcome(t.store.snapshots + [s], t.store.outcomes) == LastAnswer(t.answered)
    ensures CycleOf(LastAnswer(t.answered)) == LastServed(t.served)
  {
    if |t.served| > 0 {
      var k := |t.served| - 1;
      assert StoresAnswer(t.store, t.store.outcomes[k], t.served[k], t.answered[k]);
      WindowEndStays(t.store.snapshots, s, t.answered[k].snapshotId);
    }
  }

  /** A request is sent with the last stored outcome and the previous served cycle, and announces
      the changes since then. */
  lemma {:induction false} SentRequest(t: Trace, c: Cycle)
    requires Inv(t) && WellComposed(c.result, c.windowEnd) && t.lastEnd < c.windowEnd
    requires Sends(t.store, c)
    ensures RequestOf(t.store, c).previous == LastAnswer(t.answered)
    ensures RequestOf(t.store, c).previousCycle == LastServed(t.served)
    ensures AnnouncesChanges(Advance(t, c).log, RequestOf(t.store, c))
  {
    hide StoresAnswers, AnnouncesChanges, Logged, LatestOutcome, Chains, LastAnswer, Trim, EndingAfter, Updated, Track;
    var log := t.log + [Composition(c.windowEnd, IdsByAnchor(c.result.sensors))];
    LatestIsLastAnswer(t, c.result.snapshot);
    SavedSetsAreLogged(t, c);
    LastServedInTime(t);
    TableAnnouncesChanges(TrackedBy(t.store, c), log, RequestOf(t.store, c).previousCycle, RequestOf(t.store, c));
  }

  /** The invariant holds after every run. */
  lemma {:induction false} RunKeepsInv(cycles: seq<Cycle>)
    requires IsRun(cycles)
    ensures Inv(Exec(cycles))
    ensures Exec(cycles).lastEnd == LastEnd(cycles)
  {
    if |cycles| > 0 {
      var rest := cycles[..|cycles| - 1];
      RunKeepsInv(rest);
      AdvanceKeepsInv(Exec(rest), cycles[|cycles| - 1]);
    }
  }

  /** Sensors an anchor was composed from when the snapshot was. */
  ghost predicate ComposedFrom(log: seq<Composition>, s: Snapshot, a: GraphAnchor, ids: seq<Id>) {
    exists i :: ComposedIn(log, s, i) && a in log[i].sets && log[i].sets[a] == ids
  }

  /** Every composition of the anchor since the snapshot used the sensors the snapshot used. */
  ghost predicate SameSensorsSince(log: seq<Composition>, s: Snapshot, a: GraphAnchor) {
    forall i, j :: ComposedIn(log, s, i) && a in log[i].sets && i <= j < |log| && a in log[j].sets
      ==> log[j].sets[a] == log[i].sets[a]
  }

  /** A score of a logged snapshot outlives trimming exactly when the sensors of its anchor have
      stayed the same since, and then it was composed from the sensors that are tracked now. */
  lemma {:induction false} KeptExactlyWhenUnchanged(table: SetTable, log: seq<Composition>, s: Snapshot, a: GraphAnchor)
    requires Ordered(log) && TableIsLog(table, log) && Logged(log, s) && Scores(s, a)
    ensures !Predates(s.windowEnd, SetChangedAt(table, a)) <==> SameSensorsSince(log, s, a)
    ensures !Predates(s.windowEnd, SetChangedAt(table, a)) ==> a in table && ComposedFrom(log, s, a, table[a].pointIds)
  {
    var i :| ComposedIn(log, s, i);
    assert EntryIsLog(table, log, a);
    UnchangedSince(log, a, i);
    LastChangeMeans(log, a);
    forall k | ComposedIn(log, s, k)
      ensures k == i
    {
      AtMostOneAt(log, k, i);
    }
  }

  lemma {:induction false} AtMostOneAt(log: seq<Composition>, i: int, j: int)
    requires Ordered(log) && 0 <= i < |log| && 0 <= j < |log| && log[i].at == log[j].at
    ensures i == j
  {
  }

  lemma {:induction false} TrimmedScores(table: SetTable, log: seq<Composition>, s: Snapshot)
    requires Ordered(log) && TableIsLog(table, log) && Logged(log, s)
    ensures var kept := TrimSnapshot(s, table);
      && (forall p :: p in kept.pointScores <==> p in s.pointScores && SameSensorsSince(log, s, PointAnchor(p.pointId)))
      && (forall r :: r in kept.routeScores <==> r in s.routeScores && SameSensorsSince(log, s, RouteAnchor(r.routeId)))
      && (forall a :: Scores(kept, a) ==> a in table && ComposedFrom(log, s, a, table[a].pointIds))
  {
    var kept := TrimSnapshot(s, table);
    FilterMembers(s.pointScores,
                  (p: PointScore) => !Predates(s.windowEnd, SetChangedAt(table, PointAnchor(p.pointId))));
    FilterMembers(s.routeScores,
                  (r: RouteScore) => !Predates(s.windowEnd, SetChangedAt(table, RouteAnchor(r.routeId))));
    forall p | p in s.pointScores
      ensures p in kept.pointScores <==> SameSensorsSince(log, s, PointAnchor(p.pointId))
    {
      assert Scores(s, PointAnchor(p.pointId));
      KeptExactlyWhenUnchanged(table, log, s, PointAnchor(p.pointId));
    }
    forall r | r in s.routeScores
      ensures r in kept.routeScores <==> SameSensorsSince(log, s, RouteAnchor(r.routeId))
    {
      assert Scores(s, RouteAnchor(r.routeId));
      KeptExactlyWhenUnchanged(table, log, s, RouteAnchor(r.routeId));
    }
    forall a | Scores(kept, a)
      ensures a in table && ComposedFrom(log, s, a, table[a].pointIds)
    {
      assert Scores(s, a);
      KeptExactlyWhenUnchanged(table, log, s, a);
    }
  }

  /** Every request that any cycle of any run sends returns the outcome the optimiser last gave that
      was stored, and announces exactly the anchors whose sensors changed since the cycle of that
      outcome, whatever failed in between. */
  lemma {:induction false} RequestsAnnounceChanges(cycles: seq<Cycle>, c: Cycle)
    requires IsRun(cycles + [c]) && Sends(Exec(cycles).store, c)
    ensures var t, r := Exec(cycles), RequestOf(Exec(cycles).store, c);
      && r.at == c.windowEnd
      && r.previous == LastAnswer(t.answered)
      && r.previousCycle == LastServed(t.served)
      && AnnouncesChanges(Exec(cycles + [c]).log, r)
  {
    assert (cycles + [c])[..|cycles|] == cycles;
    RunKeepsInv(cycles);
    SentRequest(Exec(cycles), c);
  }

  /** Every change logged up to the last served cycle was announced by exactly one served request. */
  lemma {:induction false} ChangesServedOnce(cycles: seq<Cycle>, a: GraphAnchor, j: int) returns (k: int)
    requires IsRun(cycles)
    requires 0 <= j < |Exec(cycles).log| && IsChange(Exec(cycles).log, a, j)
    requires |Exec(cycles).served| > 0 && Exec(cycles).log[j].at <= Exec(cycles).served[|Exec(cycles).served| - 1].at
    ensures var t := Exec(cycles);
      && 0 <= k < |t.served| && a in t.served[k].changes
      && t.log[j].at <= t.served[k].changes[a].changedAt <= t.served[k].at
      && forall m :: 0 <= m < |t.served| && t.served[m].previousCycle < t.log[j].at <= t.served[m].at ==> m == k
  {
    hide Exec, IsRun, IsChange, TableIsLog, Logged, AnnouncesChanges;
    RunKeepsInv(cycles);
    var t := Exec(cycles);
    k := ServedInterval(t, t.log[j].at);
    AnnouncedBy(t.log, t.served[k], a, j);
  }

  /** Served requests split the time up to the last of them into disjoint intervals. */
  lemma {:induction false} ServedInterval(t: Trace, at: Time) returns (k: int)
    requires ServedInv(t) && ZERO_TIME < at && |t.served| > 0 && at <= t.served[|t.served| - 1].at
    ensures 0 <= k < |t.served| && t.served[k].previousCycle < at <= t.served[k].at
    ensures forall m :: 0 <= m < |t.served| && t.served[m].previousCycle < at <= t.served[m].at ==> m == k
  {
    hide AnnouncesChanges, StoresAnswers;
    k := 0;
    assert t.served[..0] == [];
    while t.served[k].at < at
      invariant 0 <= k < |t.served|
      invariant t.served[k].previousCycle < at
      decreases |t.served| - k
    {
      ChainIsPositive(t.served, k + 1);
      k := k + 1;
    }
    forall m | 0 <= m < |t.served| && t.served[m].previousCycle < at <= t.served[m].at
      ensures m == k
    {
      ServedInOrder(t, m, k);
      ServedInOrder(t, k, m);
    }
  }

  lemma {:induction false} AnnouncedBy(log: seq<Composition>, r: Request, a: GraphAnchor, j: int)
    requires AnnouncesChanges(log, r) && Ordered(log)
    requires 0 <= j < |log| && IsChange(log, a, j) && r.previousCycle < log[j].at <= r.at
    ensures a in r.changes && log[j].at <= r.changes[a].changedAt <= r.at
  {
    assert ChangedBetween(log, a, r.previousCycle, r.at);
    var l :| 0 <= l < |log| && IsLatestChangeAt(log, a, r.at, r.changes[a], l);
  }

  lemma {:induction false} ServedInOrder(t: Trace, m: int, k: int)
    requires ServedInv(t) && 0 <= m < |t.served| && 0 <= k < |t.served|
    ensures m < k ==> t.served[m].at <= t.served[k].previousCycle
  {
    hide AnnouncesChanges, StoresAnswers;
    if m < k {
      ChainIsPositive(t.served, k);
      ServedInOrder(t, m, k - 1);
    }
  }
}
