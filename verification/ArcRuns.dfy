/** Which samples the arc history summarises, over all runs of observation cycles. */
module ArcRuns {
  import opened Basics
  import opened Seqs
  import opened Buckets
  import opened Domain
  import opened SensorSets
  import opened ArcTables
  import opened ArcHistories
  import opened ObservationCycles

  /** The window of the sample began before some change of the sensors of the anchor. */
  ghost predicate BeganBeforeChange(log: seq<Composition>, a: GraphAnchor, x: ArcSample) {
    exists j :: 0 <= j < |log| && IsChange(log, a, j) && x.start < log[j].at
  }

  /** The hourly cell of the sample holds a sample whose window began before a change. */
  ghost predicate CellReachesBack<K>(log: seq<Composition>, a: GraphAnchor, samples: seq<ArcSample>,
      key: ArcSample -> K, x: ArcSample)
  {
    exists y :: y in samples && key(y) == key(x) && BeganBeforeChange(log, a, y)
  }

  /** What the filter of the cells drops, said of the changes behind the table. */
  lemma {:induction false} RetainedSinceChanges<K>(table: SetTable, log: seq<Composition>, a: GraphAnchor,
      samples: seq<ArcSample>, key: ArcSample -> K, since: Time, x: ArcSample)
    requires Ordered(log) && TableIsLog(table, log)
    ensures SampleRetained(samples, key, since, SetChangedAt(table, a), x)
       <==> HourStart(x.start) >= since && !CellReachesBack(log, a, samples, key, x)
  {
    assert EntryIsLog(table, log, a);
    LastChangeMeans(log, a);
    if Latest(log, a) == None {
      NoChangeWithoutEntry(log, a);
    }
    assert SetChangedAt(table, a) == LastChange(log, a);
    forall y
      ensures BeganBeforeChange(log, a, y) <==> LastChange(log, a) != ZERO_TIME && y.start < LastChange(log, a)
    {
      if LastChange(log, a) != ZERO_TIME {
        var j :| 0 <= j < |log| && IsLastChange(log, a, j);
      }
    }
  }

  /** In every run and for either table of cells, a sample is summarised exactly when its hour is
      recent enough and no sample of its cell began before a change of the sensors of the route.
      Every summarised sample was composed from the sensors that its route has in the table. */
  lemma {:induction false} SummarisedSamplesAreOfCurrentSensors<K>(cycles: seq<Cycle>, key: ArcSample -> K,
      since: Time, x: ArcSample)
    returns (s: Snapshot)
    requires IsRun(cycles)
    requires x in AllSamples(Exec(cycles).store.snapshots)
    ensures var t, a, samples := Exec(cycles), RouteAnchor(x.routeId), AllSamples(Exec(cycles).store.snapshots);
            var summarised := SampleRetained(samples, key, since, SetChangedAt(t.store.sensorSets, a), x);
      && s in t.store.snapshots && x in SamplesOf(s)
      && (summarised <==> HourStart(x.start) >= since && !CellReachesBack(t.log, a, samples, key, x))
      && (summarised ==> a in t.store.sensorSets && ComposedFrom(t.log, s, a, t.store.sensorSets[a].pointIds))
      && (summarised ==> SameSensorsSince(t.log, s, a))
  {
    RunKeepsInv(cycles);
    var t, a := Exec(cycles), RouteAnchor(x.routeId);
    var samples := AllSamples(t.store.snapshots);
    s := SnapshotOfSample(t.store.snapshots, x);
    SampleIsScored(t, s, x);
    RetainedSinceChanges(t.store.sensorSets, t.log, a, samples, key, since, x);
    KeptExactlyWhenUnchanged(t.store.sensorSets, t.log, s, a);
  }

  /** A sample is of a route that its snapshot scores, and of the window of the snapshot. */
  lemma {:induction false} SampleIsScored(t: Trace, s: Snapshot, x: ArcSample)
    requires Inv(t) && s in t.store.snapshots && x in SamplesOf(s)
    ensures Logged(t.log, s) && Scores(s, RouteAnchor(x.routeId))
    ensures x.start == s.windowStart < s.windowEnd == x.end
  {
    var n :| 0 <= n < |t.store.snapshots| && t.store.snapshots[n] == s;
    FilterMapMembers(s.routeScores, (score: RouteScore) => SampleOf(s, score));
    var i :| 0 <= i < |s.routeScores| && SampleOf(s, s.routeScores[i]) == Some(x);
    assert s.routeScores[i] in s.routeScores;
  }

  lemma {:induction false} SnapshotOfSample(snapshots: seq<Snapshot>, x: ArcSample) returns (s: Snapshot)
    requires x in AllSamples(snapshots)
    ensures s in snapshots && x in SamplesOf(s)
  {
    s := snapshots[|snapshots| - 1];
    if x !in SamplesOf(s) {
      s := SnapshotOfSample(snapshots[..|snapshots| - 1], x);
    }
  }

  lemma {:induction false} SampleOfSnapshot(snapshots: seq<Snapshot>, s: Snapshot, x: ArcSample)
    requires s in snapshots && x in SamplesOf(s)
    ensures x in AllSamples(snapshots)
  {
    if s != snapshots[|snapshots| - 1] {
      SampleOfSnapshot(snapshots[..|snapshots| - 1], s, x);
    }
  }

  /** The same of the samples behind the arc history that any cycle of any run sends, which is
      summarised between saving the sensor sets and saving the snapshot. */
  lemma {:induction false} SentArcSamplesAreOfCurrentSensors<K>(cycles: seq<Cycle>, c: Cycle, key: ArcSample -> K,
      since: Time, x: ArcSample)
    returns (s: Snapshot)
    requires IsRun(cycles + [c]) && Sends(Exec(cycles).store, c)
    requires x in AllSamples(Exec(cycles).store.snapshots)
    ensures var tracked, log, a := TrackedBy(Exec(cycles).store, c), Exec(cycles + [c]).log, RouteAnchor(x.routeId);
            var samples := AllSamples(Exec(cycles).store.snapshots);
            var sent := SampleRetained(samples, key, since, SetChangedAt(tracked, a), x);
      && s in Exec(cycles).store.snapshots && x in SamplesOf(s)
      && (sent <==> HourStart(x.start) >= since && !CellReachesBack(log, a, samples, key, x))
      && (sent ==> a in tracked && ComposedFrom(log, s, a, tracked[a].pointIds) && SameSensorsSince(log, s, a))
  {
    hide SampleRetained, AllSamples, SamplesOf, SameSensorsSince, ComposedFrom, Track, Updated, WellComposed;
    hide CellReachesBack;
    var tracking := c.(stop := Settings);
    assert (cycles + [c])[..|cycles|] == cycles;
    assert (cycles + [tracking])[..|cycles|] == cycles;
    s := SummarisedSamplesAreOfCurrentSensors(cycles + [tracking], key, since, x);
  }

  /** So the rows that any cycle of any run sends are of exactly those samples of their routes. */
  lemma {:induction false} SentRowsAreOfThese(cycles: seq<Cycle>, c: Cycle, since: Time, x: ArcSample)
    requires IsRun(cycles + [c]) && Sends(Exec(cycles).store, c)
    requires x in AllSamples(Exec(cycles).store.snapshots)
    ensures var log, table, a := Exec(cycles + [c]).log, Exec(cycles + [c]).store.sensorSets, RouteAnchor(x.routeId);
            var samples := AllSamples(Exec(cycles).store.snapshots);
      && (x in RouteSamples(samples, table, x.routeId, since) <==>
            HourStart(x.start) >= since && !CellReachesBack(log, a, samples, StagnationKey, x))
      && (x in RouteFlowDwellSamples(samples, table, x.routeId, since) <==>
            HourStart(x.start) >= since && !CellReachesBack(log, a, samples, FlowDwellKey, x))
  {
    var samples, tracked := AllSamples(Exec(cycles).store.snapshots), TrackedBy(Exec(cycles).store, c);
    assert (cycles + [c])[..|cycles|] == cycles;
    var _ := SentArcSamplesAreOfCurrentSensors(cycles, c, StagnationKey, since, x);
    var _ := SentArcSamplesAreOfCurrentSensors(cycles, c, FlowDwellKey, since, x);
    hide SampleRetained, AllSamples, CellReachesBack, IsRun, Track, Updated, SameSensorsSince, ComposedFrom,
      StagnationKey, FlowDwellKey;
    var changedAt := RouteChangedAt(tracked, x.routeId);
    FilterMembers(samples, (s: ArcSample) =>
      s.routeId == x.routeId && SampleRetained(samples, StagnationKey, since, changedAt, s));
    FilterMembers(samples, (s: ArcSample) =>
      s.routeId == x.routeId && SampleRetained(samples, FlowDwellKey, since, changedAt, s));
  }

  /** The sample of the very cycle that changed the sensors of a route is never summarised again,
      for its window began before it ended, nor is any other sample of its cell. Its score stays in
      the trimmed history as long as the sensors stay. */
  lemma {:induction false} ChangingSampleIsLost<K>(cycles: seq<Cycle>, key: ArcSample -> K, since: Time,
      s: Snapshot, r: RouteScore, i: int)
    requires IsRun(cycles) && s in Exec(cycles).store.snapshots
    requires r in s.routeScores && SampleOf(s, r).Some?
    requires ComposedIn(Exec(cycles).log, s, i) && IsChange(Exec(cycles).log, RouteAnchor(r.routeId), i)
    ensures var t, a, x := Exec(cycles), RouteAnchor(r.routeId), SampleOf(s, r).value;
            var samples := AllSamples(t.store.snapshots);
      && x in samples
      && (forall y :: y in samples && key(y) == key(x)
            ==> !SampleRetained(samples, key, since, SetChangedAt(t.store.sensorSets, a), y))
      && (r in TrimSnapshot(s, t.store.sensorSets).routeScores <==> SameSensorsSince(t.log, s, a))
  {
    RunKeepsInv(cycles);
    var t, a, x := Exec(cycles), RouteAnchor(r.routeId), SampleOf(s, r).value;
    var samples := AllSamples(t.store.snapshots);
    FilterMapMembers(s.routeScores, (score: RouteScore) => SampleOf(s, score));
    SampleOfSnapshot(t.store.snapshots, s, x);
    var n :| 0 <= n < |t.store.snapshots| && t.store.snapshots[n] == s;
    TrimmedScores(t.store.sensorSets, t.log, s);
    assert BeganBeforeChange(t.log, a, x);
    forall y | y in samples && key(y) == key(x)
      ensures !SampleRetained(samples, key, since, SetChangedAt(t.store.sensorSets, a), y)
    {
      assert CellReachesBack(t.log, a, samples, key, y);
      RetainedSinceChanges(t.store.sensorSets, t.log, a, samples, key, since, y);
    }
  }

  /** Cycle n of a run composes one route, and ends n minutes past the first hour. Its sensors change
      in the second cycle. */
  function RouteCycle(n: nat): Cycle {
    var snapshot := Snapshot(CycleId(n), EndOfCycle(n) - MINUTE, EndOfCycle(n), [], [RouteScoreAlone()],
                             MissingAnchors([], []), map[]);
    Cycle(EndOfCycle(n),
          Composed(snapshot, Gaps([], [], [], []), [SensorSet(RouteAnchor("r"), SensorsOf(n), ZERO_TIME)]),
          Answer("OK", "{}", None, None, None),
          Complete)
  }

  function EndOfCycle(n: nat): Time {
    HOUR + n * MINUTE
  }

  function CycleId(n: nat): (id: Id)
    ensures |id| == n
  {
    seq(n, _ => '1')
  }

  function RouteScoreAlone(): RouteScore {
    RouteScore("r", 1.0, 1.0, None, Some(1.0), true, true)
  }

  function SensorsOf(n: nat): seq<Id> {
    if n == 1 then ["p"] else ["q"]
  }

  function SampleOfCycle(n: nat): ArcSample {
    ArcSample("r", EndOfCycle(n) - MINUTE, EndOfCycle(n), 2.0, 1.0, true)
  }

  function SwitchingCycles(n: nat): seq<Cycle> {
    if n == 0 then [] else SwitchingCycles(n - 1) + [RouteCycle(n)]
  }

  /** What one of these cycles does. */
  lemma {:induction false} RouteCycleStep(t: Trace, n: nat)
    requires !Taken(t.store.snapshots, CycleId(n))
    ensures var c := RouteCycle(n);
      && WellComposed(c.result, c.windowEnd)
      && Advance(t, c).store.snapshots == t.store.snapshots + [c.result.snapshot]
      && Advance(t, c).log == t.log + [Composition(EndOfCycle(n), map[RouteAnchor("r") := SensorsOf(n)])]
  {
    hide CycleId, SensorsOf, EndOfCycle;
    var c := RouteCycle(n);
    var sensors := c.result.sensors;
    assert sensors[..0] == [];
    assert sensors[0].anchor == RouteAnchor("r");
    assert IdsByAnchor(sensors) == map[RouteAnchor("r") := SensorsOf(n)];
    assert AllExclusive(Updated(t.store.sensorSets, sensors, c.windowEnd));
    assert Saves(t.store, c);
  }

  lemma {:induction false} SampleOfRouteCycle(snapshots: seq<Snapshot>, n: nat)
    ensures SamplesOf(RouteCycle(n).result.snapshot) == [SampleOfCycle(n)]
    ensures AllSamples(snapshots + [RouteCycle(n).result.snapshot]) == AllSamples(snapshots) + [SampleOfCycle(n)]
  {
    hide CycleId, SensorsOf, EndOfCycle;
    var s := RouteCycle(n).result.snapshot;
    assert s.routeScores[..0] == [];
    assert SampleOf(s, s.routeScores[0]) == Some(SampleOfCycle(n));
    assert (snapshots + [s])[..|snapshots|] == snapshots;
  }

  /** The trace holds what n of these cycles leave. */
  ghost predicate Left(t: Trace, n: nat) {
    && |t.store.snapshots| == |t.log| == |AllSamples(t.store.snapshots)| == n
    && (forall i :: 0 <= i < n ==> t.store.snapshots[i] == RouteCycle(i + 1).result.snapshot)
    && (forall i :: 0 <= i < n ==> AllSamples(t.store.snapshots)[i] == SampleOfCycle(i + 1))
    && (forall i :: 0 <= i < n ==>
          t.log[i] == Composition(EndOfCycle(i + 1), map[RouteAnchor("r") := SensorsOf(i + 1)]))
  }

  lemma {:induction false} NextIdIsFree(t: Trace, n: nat)
    requires Left(t, n)
    ensures !Taken(t.store.snapshots, CycleId(n + 1))
  {
    assert forall i :: 0 <= i < n ==> |t.store.snapshots[i].id| == i + 1;
  }

  lemma {:induction false} LeftByNext(t: Trace, after: Trace, n: nat)
    requires Left(t, n)
    requires after.store.snapshots == t.store.snapshots + [RouteCycle(n + 1).result.snapshot]
    requires after.log == t.log + [Composition(EndOfCycle(n + 1), map[RouteAnchor("r") := SensorsOf(n + 1)])]
    requires AllSamples(after.store.snapshots) == AllSamples(t.store.snapshots) + [SampleOfCycle(n + 1)]
    ensures Left(after, n + 1)
  {
    hide RouteCycle, SampleOfCycle, AllSamples, SensorsOf, EndOfCycle;
  }

  lemma {:induction false} SwitchingRun(n: nat)
    ensures IsRun(SwitchingCycles(n)) && Left(Exec(SwitchingCycles(n)), n)
    ensures LastEnd(SwitchingCycles(n)) == if n == 0 then ZERO_TIME else EndOfCycle(n)
  {
    if n > 0 {
      var before, c := SwitchingCycles(n - 1), RouteCycle(n);
      SwitchingRun(n - 1);
      var t := Exec(before);
      ExecAppend(before, c);
      hide Exec, IsRun, Advance, AllSamples, WellComposed, SensorsOf, Left;
      NextIdIsFree(t, n - 1);
      RouteCycleStep(t, n);
      SampleOfRouteCycle(t.store.snapshots, n);
      LeftByNext(t, Advance(t, c), n - 1);
    }
  }

  lemma {:induction false} ExecAppend(cycles: seq<Cycle>, c: Cycle)
    ensures Exec(cycles + [c]) == Advance(Exec(cycles), c)
    ensures IsRun(cycles + [c])
       <==> IsRun(cycles) && LastEnd(cycles) < c.windowEnd && WellComposed(c.result, c.windowEnd)
  {
    assert (cycles + [c])[..|cycles|] == cycles;
  }

  /** The second composition of the route is the last that changed its sensors. */
  lemma {:induction false} SwitchedOnce(log: seq<Composition>)
    requires |log| >= 2
    requires forall i :: 0 <= i < |log| ==> log[i].sets == map[RouteAnchor("r") := SensorsOf(i + 1)]
    ensures IsChange(log, RouteAnchor("r"), 1) && LastChange(log, RouteAnchor("r")) == log[1].at
    ensures Latest(log, RouteAnchor("r")) == Some(["q"])
  {
    var a, rest := RouteAnchor("r"), log[..|log| - 1];
    assert |log[..1]| == 1 && log[..1][0] == log[0];
    assert ["p"][0] != ["q"][0];
    if |log| > 2 {
      SwitchedOnce(rest);
      assert rest[..1] == log[..1];
      assert !IsChange(log, a, |log| - 1);
    }
  }

  /** What each cycle from the second on saved is of the current sensors, and stays in the trimmed
      history. */
  lemma {:induction false} SwitchedScores(t: Trace, n: nat, k: nat)
    requires Inv(t) && Left(t, n) && 2 <= k <= n
    ensures ComposedIn(t.log, t.store.snapshots[k - 1], k - 1)
    ensures SamplesOf(t.store.snapshots[k - 1]) == [SampleOfCycle(k)]
    ensures SameSensorsSince(t.log, t.store.snapshots[k - 1], RouteAnchor("r"))
    ensures RouteScoreAlone() in TrimSnapshot(t.store.snapshots[k - 1], t.store.sensorSets).routeScores
  {
    hide TrimSnapshot, AllSamples, SamplesOf;
    var s := t.store.snapshots[k - 1];
    SampleOfRouteCycle([], k);
    assert s == RouteCycle(k).result.snapshot;
    assert ComposedIn(t.log, s, k - 1);
    forall i | ComposedIn(t.log, s, i)
      ensures i == k - 1
    {
      AtMostOneAt(t.log, i, k - 1);
    }
    TrimmedScores(t.store.sensorSets, t.log, s);
    assert s.routeScores[0] == RouteScoreAlone();
  }

  /** The sensors of the route changed when the second cycle ended. */
  lemma {:induction false} SwitchedAt(t: Trace, n: nat)
    requires Inv(t) && Left(t, n) && n >= 2
    ensures SetChangedAt(t.store.sensorSets, RouteAnchor("r")) == EndOfCycle(2)
    ensures IsChange(t.log, RouteAnchor("r"), 1)
  {
    hide AllSamples;
    SwitchedOnce(t.log);
    assert EntryIsLog(t.store.sensorSets, t.log, RouteAnchor("r"));
  }

  /** The samples of one hour are in one cell of either table. */
  lemma {:induction false} OneCell(k: nat)
    requires 2 <= k <= 60
    ensures StagnationKey(SampleOfCycle(2)) == StagnationKey(SampleOfCycle(k))
    ensures FlowDwellKey(SampleOfCycle(2)) == FlowDwellKey(SampleOfCycle(k))
  {
    hide Bucket;
  }

  /** Neither table gives these samples to a summary. */
  lemma {:induction false} SwitchedSampleIsLost<K>(n: nat, key: ArcSample -> K, k: nat)
    requires 2 <= k <= n && key(SampleOfCycle(2)) == key(SampleOfCycle(k))
    ensures var samples := AllSamples(Exec(SwitchingCycles(n)).store.snapshots);
      && SampleOfCycle(k) in samples
      && !SampleRetained(samples, key, HOUR, EndOfCycle(2), SampleOfCycle(k))
  {
    var cycles := SwitchingCycles(n);
    SwitchingRun(n);
    RunKeepsInv(cycles);
    hide Exec, IsRun, SwitchingCycles, SampleRetained, SamplesOf, SameSensorsSince, AllSamples, TrimSnapshot;
    var t := Exec(cycles);
    SwitchedScores(t, n, 2);
    SwitchedAt(t, n);
    var s := t.store.snapshots[1];
    assert s.routeScores[0] == RouteScoreAlone() && SampleOf(s, RouteScoreAlone()) == Some(SampleOfCycle(2));
    assert AllSamples(t.store.snapshots)[k - 1] == SampleOfCycle(k);
    ChangingSampleIsLost(cycles, key, HOUR, s, RouteScoreAlone(), 1);
  }

  lemma {:induction false} InFirstHour(k: nat)
    requires 2 <= k <= 60
    ensures HourStart(SampleOfCycle(k).start) == HOUR && (k > 2 ==> SampleOfCycle(k).start >= EndOfCycle(2))
  {
  }

  /** So the filter loses samples of current sensors: here, for the rest of the hour, those of the cycle
      that changed them and of every later one, although their scores stay in the history. */
  lemma {:induction false} CurrentSamplesAreLost(n: nat, k: nat)
    requires 2 <= k <= n && k <= 60
    ensures IsRun(SwitchingCycles(n)) && |Exec(SwitchingCycles(n)).store.snapshots| == n
    ensures var t, x := Exec(SwitchingCycles(n)), SampleOfCycle(k);
            var samples, changedAt := AllSamples(t.store.snapshots), SetChangedAt(t.store.sensorSets, RouteAnchor("r"));
            var s := t.store.snapshots[k - 1];
      && SamplesOf(s) == [x] && SameSensorsSince(t.log, s, RouteAnchor("r"))
      && RouteScoreAlone() in TrimSnapshot(s, t.store.sensorSets).routeScores
      && x in samples && HourStart(x.start) == HOUR && (k > 2 ==> x.start >= changedAt)
      && !SampleRetained(samples, StagnationKey, HOUR, changedAt, x)
      && !SampleRetained(samples, FlowDwellKey, HOUR, changedAt, x)
  {
    var cycles := SwitchingCycles(n);
    SwitchingRun(n);
    RunKeepsInv(cycles);
    OneCell(k);
    InFirstHour(k);
    hide Exec, IsRun, SwitchingCycles, SampleRetained, SamplesOf, SameSensorsSince, AllSamples, TrimSnapshot;
    hide StagnationKey, FlowDwellKey, HourStart, SampleOfCycle, EndOfCycle, RouteCycle;
    var t := Exec(cycles);
    SwitchedScores(t, n, k);
    SwitchedAt(t, n);
    SwitchedSampleIsLost(n, StagnationKey, k);
    SwitchedSampleIsLost(n, FlowDwellKey, k);
  }
}
