/** Evaluating heartbeat-loss holds, one evaluation after another. */
module Holds {
  import opened Basics
  import opened Seqs
  import opened Devices
  import opened HoldPolicy
  import opened HoldTable

  /** The repository calls of an evaluation, each of which can fail. */
  datatype HoldCall = FindFirst | CountLost | EndOpen | StartNew | FindAgain

  /** What an evaluation leaves in the table, and what it reports unless a call failed. */
  datatype Outcome = Outcome(rows: seq<HoldRow>, hold: Option<Hold>)

  function Evaluation(policy: Policy, rows: seq<HoldRow>, devices: seq<Device>, now: Time,
      fault: Option<HoldCall>): Outcome {
    var open := OpenSince(rows);
    if fault == Some(FindFirst) || fault == Some(CountLost) then Outcome(rows, None)
    else
      var count := CountOf(devices, policy.RecentSince(now), policy.LostBefore(now));
      var decision := policy.Decide(now, open, count);
      if decision.end && fault == Some(EndOpen) then Outcome(rows, None)
      else
        var ended := if decision.end then AfterEnd(rows, open.value, now) else rows;
        if !decision.start then Outcome(ended, Some(Hold(policy, if decision.end then None else open)))
        else if fault == Some(StartNew) then Outcome(ended, None)
        else
          var started := AfterStart(ended, now, count.lost);
          Outcome(started, if fault == Some(FindAgain) then None else Some(Hold(policy, OpenSince(started))))
  }

  class HeartbeatLossHolds {
    const holds: HoldRepository
    const policy: Policy

    constructor (holds: HoldRepository, policy: Policy)
      ensures this.holds == holds && this.policy == policy
    {
      this.holds, this.policy := holds, policy;
    }

    method Evaluate(now: Time, devices: seq<Device>, fault: Option<HoldCall>) returns (reported: Option<Hold>)
      requires holds.Valid()
      modifies holds
      ensures holds.Valid()
      ensures Outcome(holds.rows, reported) == Evaluation(policy, old(holds.rows), devices, now, fault)
    {
      var hold := Hold(policy, None);
      var startedAt := holds.FindOpen();
      if fault == Some(FindFirst) {
        return None;
      }
      hold := hold.(startedAt := startedAt);
      var count := CountAcrossTenants(devices, policy.RecentSince(now), policy.LostBefore(now));
      if fault == Some(CountLost) {
        return None;
      }
      var decision := policy.Decide(now, hold.startedAt, count);
      if decision.end {
        if fault == Some(EndOpen) {
          return None;
        }
        EndCloses(holds.rows, startedAt.value, now);
        var ended := holds.End(startedAt.value, now);
        hold := hold.(startedAt := None);
      }
      if !decision.start {
        return Some(hold);
      }
      if fault == Some(StartNew) {
        return None;
      }
      StartOpens(holds.rows, now, count.lost);
      var started := holds.Start(now, count.lost);
      var open := holds.FindOpen();
      if fault == Some(FindAgain) {
        return None;
      }
      if open.Some? {
        hold := hold.(startedAt := open);
      }
      reported := Some(hold);
    }
  }

  /** An evaluation keeps the table consistent, and what it reports is what it leaves open. */
  lemma {:induction false} EvaluationReportsTable(policy: Policy, rows: seq<HoldRow>, devices: seq<Device>,
      now: Time, fault: Option<HoldCall>)
    requires Consistent(rows)
    ensures var o := Evaluation(policy, rows, devices, now, fault);
      && Consistent(o.rows)
      && (o.hold.Some? ==> o.hold.value == Hold(policy, OpenSince(o.rows)))
      && (OpenSince(o.rows) == OpenSince(rows) || OpenSince(o.rows) == None || OpenSince(o.rows) == Some(now))
  {
    var open := OpenSince(rows);
    var count := CountOf(devices, policy.RecentSince(now), policy.LostBefore(now));
    var decision := policy.Decide(now, open, count);
    var ended := if decision.end then AfterEnd(rows, open.value, now) else rows;
    if decision.end {
      EndCloses(rows, open.value, now);
    }
    StartOpens(ended, now, count.lost);
  }

  /** What happens to the devices and the table over time. */
  datatype Event =
    | Beat(id: Id, at: Time)
    | Evaluated(at: Time, fault: Option<HoldCall>)
    | Registered(device: Device, at: Time)
    | Unregistered(id: Id, at: Time)

  datatype HoldState = HoldState(devices: seq<Device>, rows: seq<HoldRow>)

  function Beaten(d: Device, id: Id, at: Time): Device {
    if d.id == id && d.kind.ObservationPage? && !d.unregistered then d.(lastHeartbeatAt := Some(at)) else d
  }

  function Gone(d: Device, id: Id): Device {
    if d.id == id then d.(unregistered := true) else d
  }

  function Apply(policy: Policy, s: HoldState, e: Event): HoldState {
    match e
    case Beat(id, at) => s.(devices := Map(s.devices, (d: Device) => Beaten(d, id, at)))
    case Evaluated(at, fault) => s.(rows := Evaluation(policy, s.rows, s.devices, at, fault).rows)
    case Registered(device, at) => s.(devices := s.devices + [device])
    case Unregistered(id, at) => s.(devices := Map(s.devices, (d: Device) => Gone(d, id)))
  }

  function ApplyAll(policy: Policy, s: HoldState, events: seq<Event>): HoldState {
    if |events| == 0 then s else Apply(policy, ApplyAll(policy, s, events[..|events| - 1]), events[|events| - 1])
  }

  /** No event is before `from`, and a new device has sent no heartbeat. */
  ghost predicate Follow(events: seq<Event>, from: Time) {
    && (forall i :: 0 <= i < |events| ==> from <= events[i].at)
    && (forall i, j :: 0 <= i < j < |events| ==> events[i].at <= events[j].at)
    && (forall i :: 0 <= i < |events| && events[i].Registered? ==> events[i].device.lastHeartbeatAt == None)
  }

  ghost predicate Silent(events: seq<Event>, id: Id) {
    forall i :: 0 <= i < |events| && events[i].Beat? ==> events[i].id != id
  }

  /** The device cannot be connected before it sends another heartbeat: its last one is too old
      for any hold that starts at `from` or later, and for the hold that is open. */
  ghost predicate LostFor(policy: Policy, s: HoldState, id: Id, from: Time) {
    forall d :: d in s.devices && d.id == id ==> Unheard(policy, d, OpenSince(s.rows), from)
  }

  ghost predicate Unheard(policy: Policy, d: Device, open: Option<Time>, from: Time) {
    || d.unregistered || d.lastHeartbeatAt == None
    || (&& d.lastHeartbeatAt.value < policy.RecentSince(from)
        && (d.kind.ObservationPage? ==> from - d.lastHeartbeatAt.value > policy.heartbeatTimeout)
        && (open.Some? ==> d.lastHeartbeatAt.value < policy.RecentSince(open.value)))
  }

  lemma {:induction false} StaysLost(policy: Policy, s: HoldState, events: seq<Event>, id: Id, from: Time)
    requires Consistent(s.rows) && LostFor(policy, s, id, from) && Follow(events, from) && Silent(events, id)
    ensures Consistent(ApplyAll(policy, s, events).rows) && LostFor(policy, ApplyAll(policy, s, events), id, from)
  {
    if |events| > 0 {
      var rest, e := events[..|events| - 1], events[|events| - 1];
      assert forall i :: 0 <= i < |rest| ==> rest[i] == events[i];
      StaysLost(policy, s, rest, id, from);
      StepStaysLost(policy, ApplyAll(policy, s, rest), e, id, from);
    }
  }

  lemma {:induction false} StepStaysLost(policy: Policy, s: HoldState, e: Event, id: Id, from: Time)
    requires Consistent(s.rows) && LostFor(policy, s, id, from) && from <= e.at
    requires e.Beat? ==> e.id != id
    requires e.Registered? ==> e.device.lastHeartbeatAt == None
    ensures Consistent(Apply(policy, s, e).rows) && LostFor(policy, Apply(policy, s, e), id, from)
  {
    var t := Apply(policy, s, e);
    if e.Evaluated? {
      EvaluationReportsTable(policy, s.rows, s.devices, e.at, e.fault);
    }
    forall d | d in t.devices && d.id == id
      ensures Unheard(policy, d, OpenSince(t.rows), from)
    {
      if e.Beat? || e.Unregistered? {
        var i :| 0 <= i < |t.devices| && t.devices[i] == d;
        assert s.devices[i] in s.devices;
      }
    }
  }

  /** What an evaluation reports of a device; nothing when a call fails. */
  function Reports(policy: Policy, s: HoldState, e: Event, d: Device): Option<bool>
    requires e.Evaluated?
  {
    match Evaluation(policy, s.rows, s.devices, e.at, e.fault).hold
    case None => None
    case Some(hold) => Some(hold.Connected(d, e.at))
  }

  /** Once a device is reported disconnected, more than two timeouts after its last heartbeat, no
      later evaluation reports it connected until it sends another heartbeat, however often holds
      end and start in between. */
  lemma {:induction false} NoReconnectWithoutHeartbeat(policy: Policy, s: HoldState, first: Event,
      between: seq<Event>, last: Event, d: Device, later: Device)
    requires Consistent(s.rows) && first.Evaluated? && last.Evaluated?
    requires d in s.devices && (forall x :: x in s.devices && x.id == d.id ==> x == d)
    requires d.lastHeartbeatAt.Some? && first.at - d.lastHeartbeatAt.value > 2 * policy.heartbeatTimeout
    requires Reports(policy, s, first, d) == Some(false)
    requires Follow(between + [last], first.at) && Silent(between, d.id)
    requires later in ApplyAll(policy, Apply(policy, s, first), between).devices && later.id == d.id
    ensures Reports(policy, ApplyAll(policy, Apply(policy, s, first), between), last, later) != Some(true)
  {
    var t := Apply(policy, s, first);
    EvaluationReportsTable(policy, s.rows, s.devices, first.at, first.fault);
    KeptHoldIsCurrent(policy, s, first);
    assert LostFor(policy, t, d.id, first.at);
    var all := between + [last];
    assert all[|between|] == last;
    assert forall i :: 0 <= i < |between| ==> between[i] == all[i];
    StaysLost(policy, t, between, d.id, first.at);
    var u := ApplyAll(policy, t, between);
    StepStaysLost(policy, u, last, d.id, first.at);
    EvaluationReportsTable(policy, u.rows, u.devices, last.at, last.fault);
  }

  /** A hold that an evaluation reports has not lasted its longest duration. */
  lemma {:induction false} KeptHoldIsCurrent(policy: Policy, s: HoldState, e: Event)
    requires Consistent(s.rows) && e.Evaluated?
    ensures var o := Evaluation(policy, s.rows, s.devices, e.at, e.fault);
      o.hold.Some? && o.hold.value.startedAt.Some? ==>
        e.at == o.hold.value.startedAt.value || e.at < o.hold.value.startedAt.value + policy.maxDuration
  {
    EvaluationReportsTable(policy, s.rows, s.devices, e.at, e.fault);
    var open := OpenSince(s.rows);
    var count := CountOf(s.devices, policy.RecentSince(e.at), policy.LostBefore(e.at));
    var decision := policy.Decide(e.at, open, count);
    if decision.end {
      EndCloses(s.rows, open.value, e.at);
      StartOpens(AfterEnd(s.rows, open.value, e.at), e.at, count.lost);
    } else {
      StartOpens(s.rows, e.at, count.lost);
    }
  }

  /** No device has sent a heartbeat since the timeout before `start`. */
  ghost predicate SilentSince(policy: Policy, devices: seq<Device>, start: Time) {
    forall d :: d in devices && d.lastHeartbeatAt.Some? ==> d.lastHeartbeatAt.value <= policy.LostBefore(start)
  }

  /** An evaluation that finds the hold started at `start` over, and gets to ending it. */
  predicate Finishes(policy: Policy, start: Time, e: Event) {
    && e.Evaluated? && e.at >= start + policy.maxDuration
    && e.fault != Some(FindFirst) && e.fault != Some(CountLost) && e.fault != Some(EndOpen)
  }

  ghost predicate Finished(policy: Policy, start: Time, events: seq<Event>) {
    exists i :: 0 <= i < |events| && Finishes(policy, start, events[i])
  }

  /** While all devices stay silent, a hold is open until the first evaluation that finds it over,
      whatever fails in between, and no hold starts after it. */
  lemma {:induction false} SilentHoldRuns(policy: Policy, s: HoldState, events: seq<Event>, start: Time)
    requires policy.Configured() && policy.maxDuration > policy.heartbeatTimeout
    requires Consistent(s.rows) && OpenSince(s.rows) == Some(start) && SilentSince(policy, s.devices, start)
    requires Follow(events, start + 1) && forall i :: 0 <= i < |events| ==> !events[i].Beat?
    ensures var t := ApplyAll(policy, s, events);
      && Consistent(t.rows) && SilentSince(policy, t.devices, start)
      && OpenSince(t.rows) == if Finished(policy, start, events) then None else Some(start)
  {
    if |events| > 0 {
      hide Finished, Finishes, Apply, OpenSince, Consistent, SilentSince;
      var rest, e := events[..|events| - 1], events[|events| - 1];
      assert forall i :: 0 <= i < |rest| ==> rest[i] == events[i];
      SilentHoldRuns(policy, s, rest, start);
      assert events == rest + [e];
      FinishedByLast(policy, start, rest, e);
      FinishedIsOver(policy, start, rest, e);
      SilentStep(policy, ApplyAll(policy, s, rest), e, start, Finished(policy, start, rest));
    }
  }

  lemma {:induction false} FinishedByLast(policy: Policy, start: Time, rest: seq<Event>, e: Event)
    ensures Finished(policy, start, rest + [e]) <==> Finished(policy, start, rest) || Finishes(policy, start, e)
  {
    var events := rest + [e];
    assert events[|rest|] == e;
    if i :| 0 <= i < |rest| && Finishes(policy, start, rest[i]) {
      assert Finishes(policy, start, events[i]);
    }
  }

  /** Whatever follows an evaluation that finishes a hold comes after the longest duration of it. */
  lemma {:induction false} FinishedIsOver(policy: Policy, start: Time, rest: seq<Event>, e: Event)
    requires Follow(rest + [e], start + 1)
    ensures start < e.at && (Finished(policy, start, rest) ==> e.at >= start + policy.maxDuration)
    ensures e.Registered? ==> e.device.lastHeartbeatAt == None
  {
    var events := rest + [e];
    assert events[|rest|] == e;
    if i :| 0 <= i < |rest| && Finishes(policy, start, rest[i]) {
      assert events[i] == rest[i];
    }
  }

  lemma {:induction false} SilentStep(policy: Policy, s: HoldState, e: Event, start: Time, finished: bool)
    requires policy.Configured() && policy.maxDuration > policy.heartbeatTimeout
    requires Consistent(s.rows) && SilentSince(policy, s.devices, start)
    requires OpenSince(s.rows) == if finished then None else Some(start)
    requires start < e.at && (finished ==> e.at >= start + policy.maxDuration)
    requires !e.Beat? && (e.Registered? ==> e.device.lastHeartbeatAt == None)
    ensures var t := Apply(policy, s, e);
      && Consistent(t.rows) && SilentSince(policy, t.devices, start)
      && OpenSince(t.rows) == if finished || Finishes(policy, start, e) then None else Some(start)
  {
    var t := Apply(policy, s, e);
    match e
    case Evaluated(at, fault) =>
      SilentHold(policy, s.devices, start, at);
      SilentHoldIsNotRenewed(policy, s.devices, start, at);
      EndCloses(s.rows, start, at);
    case Unregistered(id, at) =>
      forall d | d in t.devices && d.lastHeartbeatAt.Some?
        ensures d.lastHeartbeatAt.value <= policy.LostBefore(start)
      {
        var i :| 0 <= i < |t.devices| && t.devices[i] == d;
        assert s.devices[i] in s.devices;
      }
    case Registered(device, at) =>
  }
}
