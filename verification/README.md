# Observation service model

A model, in Dafny, of the service that turns device heartbeats and people counts into periodic
snapshots and regressions for an optimiser, with proofs of the properties the service relies on.
`dafny verify dfyconfig.toml` checks the whole project.

## What is modelled

- **Composition.** `Snapshots` defines what a snapshot is, point by point and anchor by anchor, over all
  measurements and mappings. `SnapshotComposer` is the service's own computation (two folds over mutable
  maps, then a classification) and is proved to compute it. `SnapshotReference` and `SnapshotScores` say what
  each value and each list of a snapshot is in terms of the measurements and mappings alone. `SnapshotClasses`,
  `SnapshotOrder` and `SnapshotFaults` say which list an element lands in, that order and old measurements do
  not matter, and exactly when a composition is defined. `OccupancyTrend` is the trend of people at a point.
- **Observation cycles.** `SensorSets` tracks which points compose each anchor. `ObservationCycles` is the
  state machine of cycles of one event, each of which may stop at any failing call, with the invariant over
  all runs, and `CycleEffects` says of the saved rows what a cycle writes and which history it hands on.
  `SnapshotRepositories` is the store as an object with its tables, and `CycleRuns` the cycle as it runs
  against it, proved to be a step of the state machine.
- **Arc history.** `ArcTables` are the hourly tables and their upserts, and `ArcSavings` says what saving one
  snapshot makes of each row. `ArcSummary` and `ArcHistories` are the summary queries, proved against the raw
  samples behind the retained cells, and `ArcRuns` says which samples of a run those are. `LeastSquares`,
  `FlowSensitivity`, `Buckets`, `Quantiles` and `Histograms` carry the arithmetic.
- **Heartbeat-loss holds.** `HoldPolicy` decides, `HoldTable` stores, `Holds` evaluates one call after the
  other, and `HoldProtocol` interleaves any number of evaluations call by call. `HoldEffects` says of the
  heartbeats what an evaluation leaves and reports.
- **Edge devices.** `Devices` and `EdgeDevices` are the devices and their methods. `DeviceTransactions`
  interleaves registrations, configurations, unregistrations and heartbeats statement by statement;
  `DeviceSafety` and `DeviceRuns` prove what every reachable state keeps, and that no transactions wait in a
  circle; `DeviceEffects` what each transaction writes, and that alone it always gets to it.
- **Messages to the optimiser.** `FlowObservations`, `FlowDigests` and `FlowEvents` build the observations,
  the history digest and the sensor events.

`Basics`, `Seqs`, `Sorting` and `StableSort` are shared helpers.

## How the service's values are modelled

- Instants and durations are whole microseconds; an instant counts from the zero instant of the source, so
  0 stands for "never", which the tables store as NULL. The database and the cycle truncate to microseconds.
- `float64` and SQL `double precision` are reals. A mean over nothing has no value among the reals: it is
  carried as an absent people count, and a snapshot that would store one is kept apart as `NotANumber`, for
  encoding it fails after the sensor sets are saved. Dereferencing an absent people count is the result
  `NilDereference`.
- Identifiers are strings in the order of their characters. They are drawn, trimmed and parsed outside the
  model; where one could be taken already, the insertion that fails for it is modelled.
- A table is a map or a sequence of rows, an upsert an update of the map. A failing call is a parameter: the
  call a cycle stops at, the statement at which a transaction fails, the repository call that fails in an
  evaluation. A transaction that fails changes nothing.
- The tables are those of one event.
- The observation window is positive, which the configuration does not check; window ends of successive
  cycles of an event increase strictly.

## Where code and documentation part

- The documentation under docs/ wants a graph element observed either by cameras or by QR locations, never by
  both, and leaves it to the authoring of the graph to check that when points are linked. The service itself
  does not check it, and composes an element with cameras and QR locations at different points all the same:
  `SnapshotFaults.OneMethodPerPointIsDefined`. Only one and the same point ID mapped both ways, to whatever
  elements, can make a composition dereference an absent count or store a mean over nothing: `SnapshotFaults`
  gives the exact conditions, and inputs for both.
- The documentation drops the samples from before a sensor change from the summary of the history. The code
  drops every hourly cell that holds a sample whose window began before the change, and the time of a change
  is the end of the window that showed it. So it also loses samples of the new sensors: always the one of the
  changing cycle itself, whose window began before it ended, and every later one that shares a cell with that
  one or with an earlier one. The trimmed history of snapshots keeps the scores of all these samples.
  `ArcRuns.SummarisedSamplesAreOfCurrentSensors` says exactly which samples are summarised,
  `ArcRuns.ChangingSampleIsLost` that the changing cycle always loses its own, and
  `ArcRuns.CurrentSamplesAreLost` and `ArcTables.LaterSampleGoesWithItsCell` give a run and tables that show it.
- A hold that outlasts the heartbeat timeout is never renewed by silence. The configuration also accepts a
  longest duration up to the timeout, with which one can be: `HoldPolicy.SilentHoldsAreNeverRenewedExactlyWhen`.

## Model

| member | source | states |
|---|---|---|
| ObservationCycles.RunKeepsInv | internal/application/observation_cycle.go:107-230 | After any run of cycles with increasing window ends, each stopped at any failing call: the sensor-set table holds exactly the latest composition of every anchor and when it last changed, every saved snapshot scores only anchors of the composition it was saved with, and stored outcomes belong to served requests that chain from each to the next |
| ObservationCycles.AdvanceKeepsInv | internal/application/observation_cycle.go:143-225 | One cycle, stopped at any call, keeps that invariant |
| ObservationCycles.KeptExactlyWhenUnchanged | internal/domain/sensor_set.go:54-83 | A saved score outlives trimming exactly when every later composition of its anchor used the same sensors, and then these are the sensors tracked now |
| CycleEffects.HistoryIsOfCurrentSensors | internal/application/observation_cycle.go:143-164 | The history that any cycle of any run hands to the optimiser is each saved snapshot that ended less than 30 minutes before the cycle, once and in the order of their ends, with exactly the scores whose anchors are still composed from the same sensors; each of these was composed from the sensors its anchor has in the table |
| CycleEffects.SpanIsOfSavedSnapshots | internal/application/observation_cycle.go:173-176 | And the span it is said to have is the longest time since any saved snapshot started |
| CycleEffects.CycleWrites | internal/application/observation_cycle.go:143-225 | Everything a cycle writes, by the call it stops at: the entry of each composed anchor, the snapshot unless its ID is taken, and the outcome with each of its columns; and exactly which cycles get to ask the optimiser |
| CycleEffects.LatestOutcomeMeans | internal/infra/db/snapshot.go:448-478 | The outcome read back is the last stored one whose snapshot is stored, column by column, with the window end of that snapshot |
| ObservationCycles.RequestsAnnounceChanges | internal/application/observation_cycle.go:186-225 | Every request returns the outcome the optimiser last gave that was stored, all but its feedback values, and announces exactly the anchors whose sensors changed since the cycle of that outcome, each with its latest change, whatever failed in between |
| ObservationCycles.ChangesServedOnce | internal/application/observation_cycle.go:210-225 | Every change up to the last stored outcome falls in the interval of exactly one served request, which announced its anchor |
| ObservationCycles.AvailableSpanMeans | internal/application/observation_cycle.go:277-288 | The available history of a request is the longest time since any snapshot saved before it started, and zero without one |
| ArcRuns.SummarisedSamplesAreOfCurrentSensors | internal/infra/db/snapshot.go:231-234 | In every run and for either table of hourly cells, a sample is summarised exactly when its hour is recent enough and no sample of its cell has a window that began before a logged change of the sensors of its route. So a sample of the current sensors is lost exactly when its cell holds such a one, and every summarised sample was composed from the sensors its route has in the table, and from no others since |
| ArcRuns.SentArcSamplesAreOfCurrentSensors | internal/application/observation_cycle.go:148-171 | The same equivalence for the samples behind the arc history that a cycle sends, which is summarised after the sensor sets are saved and before the snapshot is |
| ArcRuns.SentRowsAreOfThese | internal/application/observation_cycle.go:166-171 | So the stagnation and the flow and dwell columns of the rows that any cycle of any run sends are of exactly these samples of their routes |
| ArcRuns.ChangingSampleIsLost | internal/infra/db/snapshot.go:231-234 | In every run, the sample of the very cycle that changed the sensors of a route is never summarised, nor is any other sample of its cell, while its score stays in the trimmed history exactly as long as the sensors stay |
| ArcRuns.CurrentSamplesAreLost | internal/infra/db/snapshot.go:231-234 | A run of any number of cycles, the second of which changes the sensors of a route: for the rest of that hour the samples of the changing cycle and of every later one are of the current sensors and in the trimmed history, but in no summary |
| CycleRuns.ObservationCycle.Run | internal/application/observation_cycle.go:107-230 | A cycle run call by call against the tables, stopping anywhere, leaves exactly what its step of the run leaves, and asks the optimiser exactly when and what that step asks |
| CycleRuns.ObservationCycle.Compose | internal/application/observation_cycle.go:125-141 | Composing the listed recent measurements gives the composition of all measurements ever recorded |
| CycleRuns.ObservationCycle.Track | internal/application/observation_cycle.go:143-152 | Listing, tracking and saving the sensor sets makes the stored table the tracked one, or changes nothing when the save fails |
| CycleRuns.ObservationCycle.History | internal/application/observation_cycle.go:159-164 | The history is the snapshots that ended less than 30 minutes before the cycle, trimmed by the stored sensor sets |
| CycleRuns.ObservationCycle.Ask | internal/application/observation_cycle.go:173-215 | The question holds the previous outcome, the changes after its cycle, the trimmed history, the arc history and the available history of the request |
| CycleRuns.ObservationCycle.SaveAndAsk | internal/application/observation_cycle.go:178-225 | From saving the snapshot on: what is left and what is asked, at every stop |
| CycleRuns.SuccessiveCyclesRun | internal/application/observation_cycle.go:125-141 | Whatever successive cycles measure and wherever they stop, they make a run, so all that is proved of runs holds of them |
| CycleRuns.ObservationCycle.RunAll | internal/application/observation_cycle.go:107-230 | Any successive cycles run one after the other against empty tables, each stopping anywhere, leave exactly the state of the run of their steps, and each asks exactly when and what its step asks |
| CycleRuns.ChangesAreListed | internal/domain/sensor_set.go:42-52 | The listed changes are exactly the rows of the tracked table that changed after the previous cycle |
| SensorSets.TrackSensorSets | internal/domain/sensor_set.go:15-40 | The loop's result lists the tracked table once per anchor in anchor order, and the updates are the sets that change it |
| SensorSets.SavingUpdatesTracks | internal/domain/sensor_set.go:15-40 | Upserting just the updated sets turns the stored table into the tracked one |
| SensorSets.TrackPointwise | internal/domain/sensor_set.go:21-35 | What one composition does to the entry of each anchor: kept when the sensors are the same, never-changed when new, changed at the window end otherwise |
| SensorSets.SensorSetsChangedAfter | internal/domain/sensor_set.go:42-52 | The sets whose change is later than the given time |
| SensorSets.HistorySinceSensorSetChanges | internal/domain/sensor_set.go:54-83 | Every snapshot keeps the scores whose anchors have not changed since its window ended |
| SensorSets.TrimByTable | internal/domain/sensor_set.go:54-83 | Trimming by the sets that ever changed is trimming by the whole table |
| SnapshotRepositories.SnapshotRepository.constructor | migrations/000001_init.up.sql:41-89 | Empty tables, whose hourly cells are the aggregates of no samples |
| SnapshotRepositories.SnapshotRepository.SaveSnapshot | internal/infra/db/snapshot.go:61-139 | One transaction: it saves the snapshot and upserts both hourly tables so that each row grows by just the scores that fall into its cell and the tables stay the aggregates of all samples ever saved, or it fails and changes nothing |
| SnapshotRepositories.SnapshotRepository.SaveSensorSets | internal/infra/db/snapshot.go:522-548 | One transaction: all sets are upserted, or none when a statement fails or a row is not exclusive |
| SnapshotRepositories.SnapshotRepository.ListSensorSets | internal/infra/db/snapshot.go:487-520 | Every row once, points first |
| SnapshotRepositories.SnapshotRepository.ListSnapshotsEndingAfter | internal/infra/db/snapshot.go:161-189 | Exactly the snapshots ending after a time, in the order of their ends, those of one end in the order they were saved |
| SnapshotRepositories.SnapshotRepository.EarliestSnapshotStart | internal/infra/db/snapshot.go:378-392 | The earliest start of the saved snapshots, or none |
| SnapshotRepositories.SnapshotRepository.SummarizeHistory | internal/infra/db/snapshot.go:208-295 | The arc history of the saved samples |
| SnapshotRepositories.SnapshotRepository.LatestOptimizationOutcome | internal/infra/db/snapshot.go:448-478 | The latest outcome whose snapshot is stored, as it was given but for its feedback values, with the window end of that snapshot as its server time; or none |
| SnapshotRepositories.SnapshotRepository.SaveOptimizationOutcome | internal/infra/db/snapshot.go:431-446 | The outcome becomes the latest, all but its feedback values; when the insertion fails nothing changes |
| ArcTables.UpsertKeepsAggregate | internal/infra/db/snapshot.go:101-130 | Upserting one more sample keeps a table the aggregate of all samples, for either table |
| ArcTables.StagnationRowMeans | internal/infra/db/snapshot.go:101-116 | A stagnation row holds the running sums of the samples of its cell, their earliest start and their latest end |
| ArcTables.FlowDwellRowMeans | internal/infra/db/snapshot.go:121-131 | A flow and dwell row counts the samples of its cell, with their earliest start and latest end |
| ArcSavings.StagnationTableGrows | internal/infra/db/snapshot.go:96-119 | What saving one snapshot makes of every row of the stagnation table: the row of a cell grows by the scores with stagnation that fall into the cell, the flow being forward plus backward, and any other row stays as it was; `SaveSnapshot` ensures it |
| ArcSavings.FlowDwellTableGrows | internal/infra/db/snapshot.go:121-131 | The same of the flow and dwell table, whose cells are the bucket of that flow and, when there is any, of stagnation over flow |
| ArcTables.CellRetained | internal/infra/db/snapshot.go:231-233 | A cell passes the filter exactly when every sample in it starts no earlier than the sensors changed: no earlier sample gets through, and a later one is lost exactly when its cell holds an earlier one |
| ArcTables.LaterSampleGoesWithItsCell | internal/infra/db/snapshot.go:107-133 | Tables, made by the upserts of two samples, in which the filter drops the sample from after the change together with its cell, though it keeps the sample alone |
| ArcSummary.StagnationRows | internal/infra/db/snapshot.go:216-234 | The retained cells of a route hold exactly its retained samples, and their rows sum them |
| ArcSummary.FlowDwellRows | internal/infra/db/snapshot.go:313-321 | The same of the flow and dwell cells |
| ArcSummary.SumCells | internal/infra/db/snapshot.go:216-234 | Adding the rows cell by cell gives the running sums of all samples behind them, and of those from one unchanged sensor |
| ArcSummary.TallyCells | internal/infra/db/snapshot.go:216-240 | Grouping the cells by bucket counts every sample behind them once, and spans them all |
| ArcSummary.SummarizeRoute | internal/infra/db/snapshot.go:235-291 | A row of the query says of the retained samples themselves: their number, sums, mean, p90 bucket and extent |
| ArcSummary.BandDwell | internal/infra/db/snapshot.go:335-346 | The median dwell bucket of the samples in the band of flows that have one, or none |
| ArcSummary.SummarizeFlowDwell | internal/infra/db/snapshot.go:305-376 | The p90 flow bucket, the median dwell bucket between the quartiles of the flows, and the span of the retained samples; zero for a route that has none |
| ArcHistories.SummarizeArcHistory | internal/infra/db/snapshot.go:208-295 | One right row for each route that has retained samples, in order, and no other |
| ArcHistories.RouteSamplesAre | internal/infra/db/snapshot.go:231-234 | The samples that a row is of: those of its route whose hour is recent enough and in whose cell none began before the sensors of the route last changed, for either table |
| ArcHistories.SensitivityOfRow | internal/domain/snapshot.go:133-161 | The sensitivity computed from a row's sums is the negated least-squares slope through the retained raw samples: those of one unchanged sensor when there are enough, all otherwise |
| ArcHistories.P90OfRow | internal/infra/db/snapshot.go:243 | The reported p90 is the bucket of the true nearest-rank quantile, which it misses by at most one part in 101 |
| ArcHistories.FlowP90OfRow | internal/infra/db/snapshot.go:328-334 | The reported p90 of the flow is the bucket of the true one, which it misses by at most one part in 101 |
| ArcHistories.FreeFlowDwellOfRow | internal/infra/db/snapshot.go:335-346 | The reported free-flow dwell is the bucket of the true median dwell of the samples with flow whose buckets are between those of the true quartiles of the flows, and there is none without such a sample |
| ArcHistories.FlowQuantilesOrdered | internal/infra/db/snapshot.go:328-334 | p25 is at most p75, which is at most p90 |
| ArcHistories.FreeFlowDwellAbsent | internal/infra/db/snapshot.go:335-346 | There is no free-flow dwell exactly when no retained sample between the quartiles has any flow, exactly when the upper quartile is zero |
| Histograms.Cumulate | internal/infra/db/snapshot.go:237 | The windowed sum over sorted buckets counts the samples at or below each bucket |
| Histograms.Quantile | internal/infra/db/snapshot.go:243 | The least bucket whose cumulative count reaches the share is the quantile of the buckets |
| Quantiles.QuantileExists | internal/infra/db/snapshot.go:328-334 | Every nonempty list has every quantile |
| Quantiles.QuantileMonotone | internal/infra/db/snapshot.go:328-334 | A larger share has a quantile at least as large |
| Quantiles.BucketOfQuantile | internal/infra/db/snapshot.go:235-243 | The quantile of the buckets is the bucket of the quantile |
| Quantiles.BucketQuantileAccurate | internal/infra/db/snapshot.go:235-243 | So a quantile read off buckets is within one part in 101 of the quantile of the values |
| Buckets.CeilLog | migrations/000001_init.up.sql:72-74 | The least power of 1.02 that is at least the value |
| Buckets.BucketMonotone | migrations/000001_init.up.sql:72-74 | Larger values have buckets at least as large |
| Buckets.BucketAccurate | migrations/000001_init.up.sql:72-74 | A bucket is within one part in 101 of every value in it |
| LeastSquares.VarianceIsPairSquares | internal/domain/snapshot.go:147 | n times the sum of squares minus the squared sum is the sum of squared pairwise differences |
| LeastSquares.CovarianceIsPairProducts | internal/domain/snapshot.go:153 | The covariance from sums is the sum of products of pairwise differences |
| LeastSquares.VarianceNonNegative | internal/domain/snapshot.go:147 | So the variance is never negative |
| LeastSquares.ComonotoneCovariance | internal/domain/snapshot.go:153 | Samples that never move in opposite directions have a covariance that is not negative |
| LeastSquares.BestSlope | internal/domain/snapshot.go:153-154 | When the variance is positive, covariance over variance is the slope of a line that no line fits better, and no other slope is |
| LeastSquares.SumsPermuted | internal/domain/snapshot.go:123-129 | The sums do not depend on the order of the samples |
| FlowSensitivity.EtaIsNegatedBestSlope | internal/domain/snapshot.go:141-161 | The sensitivity is reported exactly when there are enough samples whose flows vary and the best line falls, and is then how fast it falls |
| FlowSensitivity.EtaOfLine | internal/domain/snapshot.go:141-161 | Stagnation that falls by b per unit of flow has sensitivity b |
| FlowSensitivity.EtaIgnoresLevel | internal/domain/snapshot.go:141-161 | Adding a constant to every stagnation changes nothing |
| OccupancyTrend.PeopleTrend | internal/domain/snapshot.go:465-506 | The three-pass, mean-centred computation gives the trend defined from plain sums |
| OccupancyTrend.FirstAndLast | internal/domain/snapshot.go:470-479 | The earliest and the latest sample |
| OccupancyTrend.Means | internal/domain/snapshot.go:485-493 | The means of time and people |
| OccupancyTrend.CentredSums | internal/domain/snapshot.go:495-501 | The sums of products and squares around the means |
| OccupancyTrend.TrendVariance | internal/domain/snapshot.go:481-503 | Whenever the trend divides, the sum of squares is at least half the square of the spanned minutes, around any centre, so it is positive |
| OccupancyTrend.TrendIsBestSlope | internal/domain/snapshot.go:465-506 | The trend is the slope of the best line through the samples |
| OccupancyTrend.TrendExists | internal/domain/snapshot.go:465-483 | There is a trend exactly when two samples are at least two and a half minutes apart |
| OccupancyTrend.TrendOfLine | internal/domain/snapshot.go:465-506 | People who change at a constant rate have that rate as their trend |
| OccupancyTrend.TrendOfGrowth | internal/domain/snapshot.go:465-506 | People who never decrease never have a negative trend |
| OccupancyTrend.TrendPermuted | internal/domain/snapshot.go:465-506 | The order of the samples does not matter |
| Domain.AcceptedRates | internal/domain/measurement.go:25-73 | A measurement is accepted exactly when its window is not empty and nothing it counts is negative, and then its rates give back its counts and are never negative |
| SnapshotComposer.NewSnapshot | internal/domain/snapshot.go:227-384 | The two folds and the classification compute the snapshot, gaps and sensor sets defined per point and per anchor over all measurements and mappings |
| SnapshotReference.LatestMeans | internal/domain/snapshot.go:249-270 | The measurement a point is read by is the first listed of those that end last, among those at most 15 minutes old that count people at a known, enabled point or are of a QR location |
| SnapshotReference.ValueIs | internal/domain/snapshot.go:249-279 | What a point contributes: the rates of that measurement, the mean of the people counted in the window or the people that are held, the trend of the last five minutes, everyone who came in, and the length of its window |
| SnapshotReference.ClassIs | internal/domain/snapshot.go:390-403 | Whether an anchor is scored, only held or invalid, said of its cameras and their latest measurements |
| SnapshotReference.ComposedIs | internal/domain/snapshot.go:390-432 | What is composed of an anchor: forward is the mean rate in over its cameras plus the rate in at its QR locations, backward the mean rate out, people and trend the means over those that have them |
| SnapshotScores.RouteScoresAre | internal/domain/snapshot.go:353-376 | The route scores and the held route scores of a composed snapshot: one for each anchor with a route that is scored or held, in order, with the values that the measurements of its cameras and QR locations give |
| SnapshotScores.PointScoresAre | internal/domain/snapshot.go:353-381 | The same of the point scores |
| SnapshotScores.InvalidRoutesAre | internal/domain/snapshot.go:363-367 | The routes that have cameras and nothing to score by |
| SnapshotScores.InvalidPointsAre | internal/domain/snapshot.go:373-376 | And the points |
| SnapshotScores.MissingRoutesAre | internal/domain/snapshot.go:363-369 | The routes without a score: the invalid ones and those that are only held |
| SnapshotScores.MissingPointsAre | internal/domain/snapshot.go:373-379 | And the points |
| SnapshotScores.SensorSetsAre | internal/domain/snapshot.go:370-381 | One sensor set for each anchor that is scored, in order, of exactly its accepted points, sorted, and without a time of change |
| SnapshotScores.ResolutionsAre | internal/domain/snapshot.go:301-304 | The resolution of an anchor is the longest window of a latest measurement at its accepted points, if any is longer than nothing |
| SnapshotScores.WindowIs | internal/domain/snapshot.go:337-346 | The ID and the window of the snapshot |
| SnapshotScores.RatesAddUp | internal/domain/snapshot.go:405-449 | Without QR locations, forward times the number of scored cameras is the sum of what came in per minute at them, and backward of what went out |
| SnapshotScores.OneCameraGivesCounts | internal/domain/snapshot.go:322-326 | With one camera, forward and backward times the minutes of its latest measurement are the people it counted in and out |
| SnapshotComposer.QrPoints | internal/domain/snapshot.go:239-245 | The points mapped as QR locations |
| SnapshotComposer.CollectReadings | internal/domain/snapshot.go:247-279 | After the first fold each point's reading is that of all its usable measurements |
| SnapshotComposer.ScoreAnchors | internal/domain/snapshot.go:285-335 | After the second fold each anchor's score is that of all its accepted mappings; it stops exactly when an absent people count is dereferenced |
| SnapshotComposer.IncludeMapping | internal/domain/snapshot.go:299-335 | What one mapping adds to a score |
| SnapshotComposer.ScoreCamera | internal/domain/snapshot.go:322-334 | One camera's rates, people and trend |
| SnapshotComposer.Mean | internal/domain/snapshot.go:508-515 | The mean, which is undefined of nothing |
| SnapshotComposer.ComposeScore | internal/domain/snapshot.go:390-403 | The computation gives the definition: fresh cameras before held ones, none of either is invalid, no camera at all is OK. What that means is said by `SnapshotClasses.ClassMeans` of the classes, and by `SnapshotFaults.AveragesBetween` and `SnapshotFaults.PeopleStayBetween` of the averages |
| SnapshotComposer.AverageCameraScores | internal/domain/snapshot.go:405-432 | Averages over the cameras, and over those trends that exist |
| SnapshotComposer.Classify | internal/domain/snapshot.go:353-383 | The lists filled in one pass over the sorted anchors are those of each anchor's outcome |
| SnapshotOrder.ListWindowEndingSince | internal/infra/db/measurement.go:134-163 | Exactly the measurements that end at a time or later, by their ends, and those of one end in stored order |
| SnapshotOrder.PrefilterLosesNothing | internal/application/observation_cycle.go:128 | Dropping measurements that end before the hold period changes no snapshot, gap, sensor set or resolution |
| SnapshotOrder.ListingOrderLosesNothing | internal/infra/db/measurement.go:141-145 | Nor does listing them in the order of the query |
| SnapshotOrder.OrderDoesNotMatter | internal/domain/snapshot.go:247-335 | Nor does any order of mappings, nor any order of measurements whose ends differ per point |
| SnapshotClasses.ClassMeans | internal/domain/snapshot.go:390-403 | An anchor is OK exactly when it has no camera or a usable measurement of one ends in the window, held exactly when not but some camera has a usable one, and invalid exactly when it has cameras and none has |
| SnapshotClasses.AnchorsMean | internal/domain/snapshot.go:353 | The anchors of the accepted mappings, each once, in order |
| Basics.BeforeMeans | internal/domain/snapshot.go:386-388 | The order of identifiers: one is before another when it is its beginning, or less where they first differ |
| SnapshotClasses.EachElementInItsList | internal/domain/snapshot.go:353-381 | Each accepted element is in exactly the list of its class, missing is exactly held plus invalid, no list holds anything else, and all are strictly sorted |
| SnapshotClasses.OneSensorMeans | internal/domain/snapshot.go:434-457 | An anchor has one distinct sensor exactly when all its accepted mappings are of one point |
| SnapshotClasses.QrRateGivesCounts | internal/domain/snapshot.go:306-312 | The QR rate of an anchor gives back all people that its QR points counted in the window |
| SnapshotClasses.SnapshotIsWellComposed | internal/domain/snapshot.go:353-381 | Every score of a snapshot has the sensor set it was composed from, each anchor once |
| SnapshotFaults.PanicsExactlyWhen | internal/domain/snapshot.go:331-334 | Composition dereferences an absent people count exactly when an accepted camera is only held and the measurement to hold counts no people |
| SnapshotFaults.NotANumberExactlyWhen | internal/domain/snapshot.go:322-329 | A mean over nothing is stored exactly when that does not happen and a camera of a named anchor is measured in the window, but never with people |
| SnapshotFaults.OneMethodPerPointIsDefined | internal/domain/snapshot.go:252-279 | When no point is mapped both as a camera and as a QR location, every composition is defined |
| SnapshotFaults.BothFaultsHappen | internal/domain/snapshot.go:322-334 | Inputs that show both faults |
| SnapshotFaults.AveragesBetween | internal/domain/snapshot.go:405-432 | Averaged rates, people and trends lie between any bounds of those of the cameras |
| SnapshotFaults.PeopleStayBetween | internal/domain/snapshot.go:405-432 | In a composed snapshot people are scored for exactly the anchors with a measured camera, fresh or held, and lie between any bounds of what the measurements they are scored by counted, whether or not all of these count people |
| HoldPolicy.CountAcrossTenants | internal/infra/db/heartbeat_loss_hold.go:23-41 | The number of registered pages heard since one time, and of those among them not heard since another |
| HoldPolicy.ObservationPointStates | internal/domain/heartbeat_loss_hold.go:54-73 | The nested loops compute the state map defined point by point |
| HoldPolicy.StateOfEachPoint | internal/domain/heartbeat_loss_hold.go:41-73 | Exactly the points of the devices have a state; it is disabled when the point or its device is, and otherwise active exactly when its device is a page heard within the timeout, or was heard within two timeouts before the start of a hold that is not over |
| HoldPolicy.ConnectedAtStart | internal/domain/heartbeat_loss_hold.go:41-52 | At its start, a hold connects exactly the devices counted as recent |
| HoldPolicy.SilentHold | internal/domain/heartbeat_loss_hold.go:25-34 | Without heartbeats since the timeout before its start, a hold ends exactly when its longest duration is over, and is renewed exactly when enough devices are still recent then |
| HoldPolicy.SilentHoldsAreNeverRenewedExactlyWhen | internal/domain/heartbeat_loss_hold.go:25-34 | No silent hold is ever renewed exactly when the longest duration exceeds the timeout; at the timeout itself one can be |
| HoldTable.StartOpens | internal/infra/db/heartbeat_loss_hold.go:59-69 | Starting opens a hold unless one is open, and keeps at most one open |
| HoldTable.EndCloses | internal/infra/db/heartbeat_loss_hold.go:71-80 | Ending closes the open hold when it is the one meant, and changes nothing otherwise |
| HoldTable.HoldRepository.FindOpen | internal/infra/db/heartbeat_loss_hold.go:43-57 | When the open hold started, and nothing exactly when all have ended |
| HoldTable.HoldRepository.Start | internal/infra/db/heartbeat_loss_hold.go:59-69 | A row is appended, with its start and count, exactly when all holds have ended |
| HoldTable.HoldRepository.End | internal/infra/db/heartbeat_loss_hold.go:71-80 | The open row with that start ends, and not before it started; every other row stays as it was |
| Holds.HeartbeatLossHolds.Evaluate | internal/application/heartbeat_loss_hold.go:24-80 | An evaluation, failing at any call, leaves and reports what the decision on the open hold and the counts says |
| HoldEffects.EvaluationMeans | internal/domain/heartbeat_loss_hold.go:17-35 | What an evaluation leaves and reports, whichever call fails, said of the heartbeats: a hold starts when enough pages were heard in the last two timeouts, at least the threshold share of them not in the last one, and none is open that is not to end; an open one ends when fewer than that share went silent among enough pages, or when its longest duration is over |
| HoldEffects.NoHoldWhileHeard | internal/application/heartbeat_loss_hold.go:24-80 | In any sequence of events in which every page has been heard within the timeout at each evaluation, no hold starts, and an open one is ended by the first evaluation with enough pages that gets to it |
| Holds.EvaluationReportsTable | internal/application/heartbeat_loss_hold.go:24-80 | What an evaluation reports is what it leaves open: the hold it found, none, or one that started now |
| Holds.NoReconnectWithoutHeartbeat | internal/domain/heartbeat_loss_hold.go:41-52 | In any sequence of events with a clock that never goes back, a device reported disconnected more than two timeouts after its last heartbeat is never reported connected again without one, however often holds end and start |
| Holds.SilentHoldRuns | internal/application/heartbeat_loss_hold.go:41-79 | While all devices stay silent a hold stays open until the first evaluation that finds it over gets to end it, whatever fails in between, and no hold starts after it |
| HoldProtocol.ExecKeepsInv | internal/application/heartbeat_loss_hold.go:24-80 | The invariant of all interleavings of any number of evaluations, failing anywhere, with or without effect |
| HoldProtocol.HoldsEndOnce | internal/infra/db/heartbeat_loss_hold.go:59-80 | At every step at most one hold is open, and a hold that has ended is never touched again |
| HoldProtocol.ReturnedViewWasTrue | internal/application/heartbeat_loss_hold.go:24-80 | What a call returns was the open hold of the table at some step while the call ran |
| HoldProtocol.EndedHoldWasSeen | internal/application/heartbeat_loss_hold.go:43-54 | Only the end call of a process that saw such a hold open during its evaluation ends a hold |
| HoldProtocol.DecidesOnWhatItSaw | internal/application/heartbeat_loss_hold.go:27-43 | A call decides on the hold it found and the pages it counted, whatever is open by then |
| HoldProtocol.AloneIsSequential | internal/application/heartbeat_loss_hold.go:24-80 | A call that nothing interrupts does and returns what the sequential evaluation does |
| EdgeDevices.EdgeDevice.Unregister | internal/domain/edge_device.go:269-287 | A page's points are all disabled, a camera's links dropped; a second time is refused |
| EdgeDevices.EdgeDevice.UpdateObservationPoint | internal/domain/edge_device.go:289-311 | The point with the ID is renamed and enabled or disabled, and no other; each refusal changes nothing |
| EdgeDevices.EdgeDevice.HasObservationPoint | internal/domain/edge_device.go:321-329 | Whether some point has the ID |
| EdgeDevices.EdgeDevice.Heartbeat | internal/domain/edge_device.go:331-359 | The heartbeat and exactly the active points are stamped, or nothing when any active ID is unknown |
| EdgeDevices.EdgeDevice.ApplyEffectiveEnabled | internal/application/edge_device.go:426-430 | Points of a device that is not connected are shown as disabled |
| EdgeDevices.CascadeOrderMeans | internal/application/edge_device.go:205-211 | The cameras to unregister: each linked one once, in ascending order |
| DeviceTransactions.NewDeviceIsNew | internal/domain/edge_device.go:161-267 | A new device is accepted exactly when its names are given and exactly a camera links to a point: a page has no link and one enabled point for each name, a camera no points and one link, to that point |
| DeviceSafety.StillKnows | internal/application/edge_device.go:190-243 | What a transaction knows of the rows it has locked survives every commit of the others |
| DeviceSafety.CreatePage | internal/infra/db/edge_device.go:91-123 | Creating a page keeps the links right |
| DeviceSafety.CreateCamera | internal/infra/db/edge_device.go:448-481 | Creating a camera whose point was checked under the lock of its page keeps the links right and violates no index |
| DeviceSafety.UnregisterCamera | internal/infra/db/edge_device.go:284-293 | Unregistering a camera drops its link and keeps the others right |
| DeviceSafety.UnregisterPage | internal/application/edge_device.go:204-238 | Unregistering a page together with every camera still linked to it leaves no link to its points and keeps the others right |
| DeviceRuns.ReachableInv | internal/application/edge_device.go:119-243 | In every state that interleaved transactions reach, aborting anywhere: exactly the registered cameras have a link, each its own, to a point of a registered page of their event, and the points of unregistered pages are disabled |
| DeviceRuns.UnregisteredForever | internal/application/edge_device.go:190-243 | An unregistered device stays so, its points stay disabled, and it is never linked again |
| DeviceRuns.LinkInsertionNeverViolates | internal/application/edge_device.go:151-176 | When a registration comes to insert its camera, the point has no link, and a unique index is violated exactly when the ID drawn for the camera is taken |
| DeviceRuns.LocksInOrder | internal/application/edge_device.go:191-216 | A transaction holds only rows that come before the one it locks next: pages before cameras, cameras by their IDs |
| DeviceRuns.NoDeadlock | internal/application/edge_device.go:191-216 | No reachable state has a cycle of waiting transactions |
| DeviceEffects.PageUnregistered | internal/application/edge_device.go:191-238 | In every reachable state, a page whose cameras are all locked is unregistered by the next step: its points are disabled, exactly the cameras that were linked to them are unregistered with it, their links are gone, and all other rows and links are as they were |
| DeviceEffects.CameraUnregistered | internal/application/edge_device.go:191-243 | Unregistering a camera marks its row and drops its link, and changes nothing else |
| DeviceEffects.PointConfigured | internal/application/edge_device.go:366-400 | Configuring a point gives the first point with the ID the new name and flag, and changes nothing else |
| DeviceEffects.CameraRegistered | internal/application/edge_device.go:118-139 | A registration that comes to insert its camera inserts it with its link, unless the ID drawn for it is taken |
| DeviceEffects.PageRegistered | internal/application/edge_device.go:118-139 | Creating a page writes the page and nothing else |
| DeviceEffects.PageBeaten | internal/application/edge_device.go:321-364 | A heartbeat stamps its page and the points it names, and nothing else |
| DeviceEffects.OnlyCommitsWrite | internal/application/edge_device.go:119-243 | No other step writes anything, and a transaction whose next row another one has locked waits |
| DeviceEffects.BeginningWritesNothing | internal/application/edge_device.go:119-243 | Nor does beginning or aborting one |
| DeviceEffects.CameraRegistersAlone | internal/application/edge_device.go:119-176 | With nothing in between, a registration leaves the camera and its link exactly when its ID is free and its point is unlinked and of a registered page of its event, and otherwise leaves all as it was |
| DeviceEffects.PointConfiguredAlone | internal/application/edge_device.go:366-400 | So does a configuration, exactly when a registered page of the event has the point and the name is not empty |
| DeviceEffects.CameraUnregisteredAlone | internal/application/edge_device.go:178-243 | And the unregistration of a registered camera of the event |
| DeviceEffects.PageUnregisteredAlone | internal/application/edge_device.go:178-243 | And of a page, which takes its linked cameras one by one and unregisters all of them with it |
| DeviceEffects.NothingUnregistered | internal/application/edge_device.go:190-202 | An unregistration of a device that is unknown, of another event or unregistered already changes nothing |
| FlowObservations.Observations.AppendArcObservations | internal/infra/connect/flow_client.go:338-365 | A pair of opposite flows, and the stagnation when there is one |
| FlowObservations.Observations.AddRoutes | internal/infra/connect/flow_client.go:257-261 | What the exhaustive scores of edges of the graph contribute |
| FlowObservations.Observations.AddPoints | internal/infra/connect/flow_client.go:263-278 | What the exhaustive scores of nodes contribute; a held point has no trend |
| FlowObservations.FlowObservations | internal/infra/connect/flow_client.go:246-308 | The message holds the scores of all three classes, flagged |
| FlowObservations.EachEdgeGetsItsPair | internal/infra/connect/flow_client.go:246-292 | Of a composed snapshot, each accepted edge of the graph gets exactly one pair, forward from A to B and backward from B to A as its cameras measured them, flagged as it is classified, or nothing when it is OK or held and also observed by QR locations; an invalid route gets its invalid pair even then |
| FlowObservations.EachEdgeGetsItsStagnation | internal/infra/connect/flow_client.go:354-364 | And its stagnation, the people its cameras counted, marked as of one sensor exactly when all its accepted mappings are of one point |
| FlowObservations.EachNodeGetsItsOccupancy | internal/infra/connect/flow_client.go:263-305 | And each node exactly one occupancy of its class, without a trend when the people are only held, or nothing |
| FlowDigests.Record | internal/infra/connect/flow_client.go:420-441 | Recording a score through the shared series objects keeps one series per edge, holding exactly the samples of its edge |
| FlowDigests.RecordSnapshot | internal/infra/connect/flow_client.go:417-443 | Recording all scores of a snapshot |
| FlowDigests.WindowSeries | internal/infra/connect/flow_client.go:417-443 | One series for each edge of the graph with exhaustive scores in the history, holding in order exactly their flows, both directions together, and their stagnations, at the ends of their windows; the series are in the order in which the history first has a flow of their edges |
| FlowDigests.SeriesHoldAllSamples | internal/infra/connect/flow_client.go:420-441 | The series in the list together hold as many flow samples as the history has exhaustive scores of edges of the graph, and as many stagnations as those scores have; `WindowSeries` ensures it of what it returns |
| FlowDigests.SamplesInTimeOrder | internal/infra/connect/flow_client.go:417-443 | Samples of a history in time order are in time order |
| FlowDigests.ArcStats | internal/infra/connect/flow_client.go:376-415 | The statistics of the arcs of the graph in order, and the share of the edges whose history reaches over four hours |
| FlowDigests.StatOfSamples | internal/infra/connect/flow_client.go:376-410 | What is sent of an arc, said of its retained raw samples: nothing before they reach over four hours, and from then on the bucket of their p90, their mean, and how fast the best line falls |
| FlowDigests.SpanOfSamples | internal/infra/connect/flow_client.go:381-390 | The span sent with it is, in hours, from the first start to the last end of these samples |
| FlowDigests.FlowStatOfSamples | internal/infra/connect/flow_client.go:392-395 | What is sent of the flow and dwell of an arc, said of its retained raw samples: nothing before they reach over four hours or when there are none, and then the bucket of the p90 of their flows and of the median dwell of those between the quartiles |
| FlowDigests.CompletenessIsShare | internal/infra/connect/flow_client.go:408-415 | That share is between zero and one for every arc history |
| FlowEvents.FlowEvents | internal/infra/connect/flow_client.go:310-336 | The changes of edges and nodes of the graph as events, earliest first and those of one time as listed, none lost, each with the kind and ID of its element |

## Left out

- DeviceRuns.NoDeadlock: locks on rows of observation points and on index entries are not modelled, because they are only taken under the lock of the page that owns the points, so nobody waits for one. Nor is the row of the open hold, which a configuration locks while it holds its page, when it evaluates the hold: it locks nothing after that, and an evaluation on its own holds that row for one statement only, so nobody who holds it waits for a device.
- HoldProtocol.ReturnedViewWasTrue: an evaluation inside the transaction of a configuration update is not covered, because it would need the visibility rules of the database for its own uncommitted writes.
- Floating-point rounding, NaN and infinities beyond the two faults above, and the width of integers: reals and unbounded integers are used.
- Concurrent cycles of one event: nothing in the service serialises them, and what is proved of runs is proved of cycles that follow each other.
- The order of stored heartbeat and activity times under concurrent heartbeats: a heartbeat reads without a lock, so there is nothing to claim.
- The graph, mappings, states and settings that a cycle reads are parameters, and what the optimiser answers is a parameter that is stored and returned.
- JSON encodings, tenant columns, serial numbers and the rows of other events.
- The arc history query groups cells by bucket before it adds them up; the model adds them at once.
- Trimming of names and parsing of identifiers, which come before the modelled checks.
- Recording measurements, resends and their identity, guest statuses, delivery to operations, settings, authentication, telemetry, and the generated protocol code: plumbing, or members that would follow from their bodies.
- Flow graph, boundary and enumeration mappings of the request, and its default configuration: field-by-field copies.
