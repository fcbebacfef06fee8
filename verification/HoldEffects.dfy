/** What an evaluation does to the table of holds, said of the heartbeats of the devices. */
module HoldEffects {
  import opened Basics
  import opened Seqs
  import opened Devices
  import opened HoldPolicy
  import opened HoldTable
  import opened Holds

  /** A registered page that was heard in the last two timeouts. */
  predicate HeardLately(policy: Policy, d: Device, now: Time) {
    && d.kind.ObservationPage? && !d.unregistered
    && d.lastHeartbeatAt.Some? && now - 2 * policy.heartbeatTimeout <= d.lastHeartbeatAt.value
  }

  /** And among them one that was not heard in the last timeout. */
  predicate WentSilent(policy: Policy, d: Device, now: Time) {
    HeardLately(policy, d, now) && d.lastHeartbeatAt.value < now - policy.heartbeatTimeout
  }

  function HeardCount(policy: Policy, devices: seq<Device>, now: Time): nat {
    |Filter(devices, (d: Device) => HeardLately(policy, d, now))|
  }

  function SilentCount(policy: Policy, devices: seq<Device>, now: Time): nat {
    |Filter(devices, (d: Device) => WentSilent(policy, d, now))|
  }

  /** Enough pages to tell, and at least the threshold share of them went silent. */
  predicate ManySilent(policy: Policy, devices: seq<Device>, now: Time) {
    && HeardCount(policy, devices, now) >= policy.minDevices
    && SilentCount(policy, devices, now) as real >= policy.threshold * HeardCount(policy, devices, now) as real
  }

  /** Enough pages to tell, and fewer than that share of them went silent. */
  predicate FewSilent(policy: Policy, devices: seq<Device>, now: Time) {
    && HeardCount(policy, devices, now) >= policy.minDevices
    && (SilentCount(policy, devices, now) as real) < policy.threshold * HeardCount(policy, devices, now) as real
  }

  /** The hold of the row is open, and the evaluation is to end it. */
  predicate IsToEnd(policy: Policy, row: HoldRow, devices: seq<Device>, now: Time) {
    row.endedAt == None && (now >= row.startedAt + policy.maxDuration || FewSilent(policy, devices, now))
  }

  ghost predicate Ends(policy: Policy, rows: seq<HoldRow>, devices: seq<Device>, now: Time) {
    exists row :: row in rows && IsToEnd(policy, row, devices, now)
  }

  ghost predicate Starts(policy: Policy, rows: seq<HoldRow>, devices: seq<Device>, now: Time) {
    && ManySilent(policy, devices, now)
    && forall row :: row in rows && row.endedAt == None ==> IsToEnd(policy, row, devices, now)
  }

  /** Open rows ended now, and not before they started. */
  function Closed(row: HoldRow, now: Time): HoldRow {
    if row.endedAt == None then row.(endedAt := Some(if now < row.startedAt then row.startedAt else now)) else row
  }

  ghost function RowsEnded(policy: Policy, rows: seq<HoldRow>, devices: seq<Device>, now: Time): seq<HoldRow> {
    if Ends(policy, rows, devices, now) then Map(rows, row => Closed(row, now)) else rows
  }

  ghost function RowsStarted(policy: Policy, rows: seq<HoldRow>, devices: seq<Device>, now: Time): seq<HoldRow> {
    RowsEnded(policy, rows, devices, now)
    + (if Starts(policy, rows, devices, now) then [HoldRow(now, None, SilentCount(policy, devices, now))] else [])
  }

  /** The evaluation reports the hold that is open in the rows, if any is. */
  ghost predicate ReportsOpen(policy: Policy, rows: seq<HoldRow>, hold: Option<Hold>) {
    && hold.Some? && hold.value.policy == policy
    && (hold.value.startedAt == None <==> forall row :: row in rows ==> row.endedAt.Some?)
    && (hold.value.startedAt.Some? ==>
          exists row :: row in rows && row.endedAt == None && row.startedAt == hold.value.startedAt.value)
  }

  lemma {:induction false} CountIs(policy: Policy, devices: seq<Device>, now: Time)
    ensures var count := CountOf(devices, policy.RecentSince(now), policy.LostBefore(now));
      && count.recent == HeardCount(policy, devices, now) && count.lost == SilentCount(policy, devices, now)
      && (policy.Suspected(count) <==> ManySilent(policy, devices, now))
      && (policy.Enough(count) && !policy.Suspected(count) <==> FewSilent(policy, devices, now))
  {
    FilterAgrees(devices, (d: Device) => HeardLately(policy, d, now),
                 (d: Device) => IsRecent(d, policy.RecentSince(now)));
    FilterAgrees(devices, (d: Device) => WentSilent(policy, d, now),
                 (d: Device) => IsLost(d, policy.RecentSince(now), policy.LostBefore(now)));
  }

  lemma {:induction false} OpenIs(rows: seq<HoldRow>)
    requires Consistent(rows)
    ensures OpenSince(rows) == None <==> forall row :: row in rows ==> row.endedAt.Some?
    ensures forall row :: row in rows && row.endedAt == None ==> OpenSince(rows) == Some(row.startedAt)
    ensures OpenSince(rows).Some? ==>
              exists row :: row in rows && row.endedAt == None && row.startedAt == OpenSince(rows).value
  {
    OpenRows(rows);
    forall row | row in rows && row.endedAt == None
      ensures OpenSince(rows) == Some(row.startedAt)
    {
      var i :| 0 <= i < |rows| && rows[i] == row;
      OpenAt(rows, row.startedAt);
    }
  }

  lemma {:induction false} DecisionIs(policy: Policy, rows: seq<HoldRow>, devices: seq<Device>, now: Time)
    requires Consistent(rows)
    ensures var count := CountOf(devices, policy.RecentSince(now), policy.LostBefore(now));
            var decision := policy.Decide(now, OpenSince(rows), count);
      (decision.end <==> Ends(policy, rows, devices, now)) && (decision.start <==> Starts(policy, rows, devices, now))
  {
    CountIs(policy, devices, now);
    OpenIs(rows);
    hide CountOf, OpenSince, Consistent, ManySilent, FewSilent, Policy.Enough, Policy.Suspected;
  }

  lemma {:induction false} ClosedRows(rows: seq<HoldRow>, now: Time)
    requires Consistent(rows) && OpenSince(rows).Some?
    ensures AfterEnd(rows, OpenSince(rows).value, now) == Map(rows, row => Closed(row, now))
  {
    OpenIs(rows);
    forall i | 0 <= i < |rows|
      ensures Ended(rows[i], OpenSince(rows).value, now) == Closed(rows[i], now)
    {
      assert rows[i] in rows;
    }
  }

  /** What an evaluation leaves and reports, whichever call fails: with enough pages heard of late, it
      starts a hold when the threshold share of them went silent and none is open that is not to end,
      and it ends an open one when that share did not, or when its longest duration is over. */
  lemma {:induction false} EvaluationMeans(policy: Policy, rows: seq<HoldRow>, devices: seq<Device>, now: Time,
      fault: Option<HoldCall>)
    requires Consistent(rows)
    ensures var o := Evaluation(policy, rows, devices, now, fault);
            var ends, starts := Ends(policy, rows, devices, now), Starts(policy, rows, devices, now);
      if fault == Some(FindFirst) || fault == Some(CountLost) || (fault == Some(EndOpen) && ends)
      then o == Outcome(rows, None)
      else if fault == Some(StartNew) && starts then o == Outcome(RowsEnded(policy, rows, devices, now), None)
      else o.rows == RowsStarted(policy, rows, devices, now)
           && if fault == Some(FindAgain) && starts then o.hold == None else ReportsOpen(policy, o.rows, o.hold)
  {
    var o := Evaluation(policy, rows, devices, now, fault);
    DecisionIs(policy, rows, devices, now);
    CountIs(policy, devices, now);
    EvaluationReportsTable(policy, rows, devices, now, fault);
    OpenIs(o.rows);
    EndedIs(policy, rows, devices, now);
    hide CountOf, OpenSince, Consistent, AfterEnd, Policy.Decide, Ends, Starts, HeardCount, SilentCount;
  }

  /** The rows once the decision to end has been carried out: none is open when one is to start. */
  lemma {:induction false} EndedIs(policy: Policy, rows: seq<HoldRow>, devices: seq<Device>, now: Time)
    requires Consistent(rows)
    ensures Ends(policy, rows, devices, now)
        ==> OpenSince(rows).Some? && AfterEnd(rows, OpenSince(rows).value, now) == RowsEnded(policy, rows, devices, now)
    ensures Starts(policy, rows, devices, now) ==> OpenSince(RowsEnded(policy, rows, devices, now)) == None
  {
    OpenIs(rows);
    if OpenSince(rows).Some? {
      ClosedRows(rows, now);
      EndCloses(rows, OpenSince(rows).value, now);
    }
    hide Consistent, OpenSince, AfterEnd, ManySilent, FewSilent, Closed;
  }

  /** Every registered page that was ever heard was heard within the timeout. */
  ghost predicate AllHeard(policy: Policy, devices: seq<Device>, now: Time) {
    forall d :: d in devices && d.kind.ObservationPage? && !d.unregistered && d.lastHeartbeatAt.Some? ==>
      now - policy.heartbeatTimeout <= d.lastHeartbeatAt.value
  }

  lemma {:induction false} NoneSilent(policy: Policy, devices: seq<Device>, now: Time)
    requires policy.Configured() && AllHeard(policy, devices, now)
    ensures SilentCount(policy, devices, now) == 0 && !ManySilent(policy, devices, now)
    ensures FewSilent(policy, devices, now) <==> HeardCount(policy, devices, now) >= policy.minDevices
  {
    FilterNone(devices, (d: Device) => WentSilent(policy, d, now));
    if HeardCount(policy, devices, now) >= policy.minDevices {
      PositiveShare(policy.threshold, HeardCount(policy, devices, now));
    }
  }

  lemma {:induction false} PositiveShare(threshold: real, n: nat)
    requires threshold > 0.0 && n > 0
    ensures threshold * n as real > 0.0
  {
  }

  /** At every evaluation, all pages have been heard within the timeout. */
  ghost predicate HeardThroughout(policy: Policy, s: HoldState, events: seq<Event>) {
    forall i :: 0 <= i < |events| && events[i].Evaluated? ==>
      AllHeard(policy, ApplyAll(policy, s, events[..i]).devices, events[i].at)
  }

  /** Event i is an evaluation with enough pages that gets to end a hold. */
  ghost predicate CanEnd(policy: Policy, s: HoldState, events: seq<Event>, i: int) {
    && 0 <= i < |events| && events[i].Evaluated?
    && events[i].fault != Some(FindFirst) && events[i].fault != Some(CountLost) && events[i].fault != Some(EndOpen)
    && HeardCount(policy, ApplyAll(policy, s, events[..i]).devices, events[i].at) >= policy.minDevices
  }

  /** While all pages keep being heard no hold starts, and an open one ends at the next evaluation with
      enough pages. */
  lemma {:induction false} NoHoldWhileHeard(policy: Policy, s: HoldState, events: seq<Event>)
    requires policy.Configured() && Consistent(s.rows) && HeardThroughout(policy, s, events)
    ensures var t := ApplyAll(policy, s, events);
      && Consistent(t.rows) && |t.rows| == |s.rows|
      && (forall i :: 0 <= i < |s.rows| && t.rows[i].endedAt == None ==> t.rows[i] == s.rows[i])
      && ((exists i :: CanEnd(policy, s, events, i)) ==> forall row :: row in t.rows ==> row.endedAt.Some?)
  {
    if |events| > 0 {
      var rest, e := events[..|events| - 1], events[|events| - 1];
      forall i | 0 <= i < |rest|
        ensures rest[i] == events[i] && rest[..i] == events[..i]
      {
      }
      NoHoldWhileHeard(policy, s, rest);
      var u := ApplyAll(policy, s, rest);
      hide ApplyAll, AllHeard, HeardCount, Consistent;
      HeardStep(policy, u, e);
      forall i | CanEnd(policy, s, events, i)
        ensures i == |rest| || CanEnd(policy, s, rest, i)
      {
      }
    }
  }

  lemma {:induction false} HeardStep(policy: Policy, s: HoldState, e: Event)
    requires policy.Configured() && Consistent(s.rows)
    requires e.Evaluated? ==> AllHeard(policy, s.devices, e.at)
    ensures var t := Apply(policy, s, e);
      && Consistent(t.rows) && |t.rows| == |s.rows|
      && (forall i :: 0 <= i < |s.rows| && t.rows[i].endedAt == None ==> t.rows[i] == s.rows[i])
      && (e.Evaluated? && e.fault != Some(FindFirst) && e.fault != Some(CountLost) && e.fault != Some(EndOpen)
          && HeardCount(policy, s.devices, e.at) >= policy.minDevices
          ==> forall row :: row in t.rows ==> row.endedAt.Some?)
  {
    if e.Evaluated? {
      NoneSilent(policy, s.devices, e.at);
      EvaluationMeans(policy, s.rows, s.devices, e.at, e.fault);
      EvaluationReportsTable(policy, s.rows, s.devices, e.at, e.fault);
      hide Evaluation, Consistent, AllHeard, HeardCount, SilentCount, FewSilent, ManySilent;
      assert !Starts(policy, s.rows, s.devices, e.at);
    }
  }
}
