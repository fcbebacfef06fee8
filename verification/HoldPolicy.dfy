/** When a loss of many heartbeats at once holds devices as connected, and for how long. */
module HoldPolicy {
  import opened Basics
  import opened Seqs
  import opened Devices
  import opened Domain

  datatype HeartbeatLossCount = HeartbeatLossCount(recent: nat, lost: nat)

  datatype Decision = Decision(end: bool, start: bool)

  datatype Policy = Policy(heartbeatTimeout: Duration, threshold: real, minDevices: int, maxDuration: Duration) {
    /** What the server checks when it reads its configuration. */
    predicate Configured() {
      0.0 < threshold <= 1.0 && minDevices >= 1 && maxDuration > 0
    }

    function RecentSince(now: Time): Time {
      now - 2 * heartbeatTimeout
    }

    function LostBefore(now: Time): Time {
      now - heartbeatTimeout
    }

    predicate Enough(count: HeartbeatLossCount) {
      count.recent >= minDevices
    }

    predicate Suspected(count: HeartbeatLossCount) {
      Enough(count) && count.lost as real >= threshold * count.recent as real
    }

    function Decide(now: Time, open: Option<Time>, count: HeartbeatLossCount): Decision {
      var end := open.Some? && (now >= open.value + maxDuration || (Enough(count) && !Suspected(count)));
      Decision(end, (open == None || end) && Suspected(count))
    }
  }

  /** The open hold that an evaluation found, if any. */
  datatype Hold = Hold(policy: Policy, startedAt: Option<Time>) {
    predicate Connected(device: Device, now: Time) {
      || device.Online(now, policy.heartbeatTimeout)
      || (&& startedAt.Some? && !device.unregistered && device.lastHeartbeatAt.Some?
          && device.lastHeartbeatAt.value >= policy.RecentSince(startedAt.value)
          && now < startedAt.value + policy.maxDuration)
    }

    function StateOf(device: Device, point: ObservationPoint, now: Time): ObservationPointState {
      if device.unregistered || !point.enabled then Disabled
      else if Connected(device, now) then Active
      else Offline
    }
  }

  /** A registered page that has sent a heartbeat at `since` or later. */
  predicate IsRecent(device: Device, since: Time) {
    && device.kind.ObservationPage? && !device.unregistered
    && device.lastHeartbeatAt.Some? && device.lastHeartbeatAt.value >= since
  }

  predicate IsLost(device: Device, since: Time, before: Time) {
    IsRecent(device, since) && device.lastHeartbeatAt.value < before
  }

  function Recents(devices: seq<Device>, since: Time): seq<Device> {
    Filter(devices, (d: Device) => IsRecent(d, since))
  }

  function CountOf(devices: seq<Device>, since: Time, before: Time): HeartbeatLossCount {
    HeartbeatLossCount(|Recents(devices, since)|, |Filter(devices, (d: Device) => IsLost(d, since, before))|)
  }

  /** A registered page that was last heard from one time on, and before another. */
  predicate HeardBetween(d: Device, from: Time, until: Option<Time>) {
    && d.kind.ObservationPage? && !d.unregistered && d.lastHeartbeatAt.Some?
    && from <= d.lastHeartbeatAt.value && (until.Some? ==> d.lastHeartbeatAt.value < until.value)
  }

  method CountAcrossTenants(devices: seq<Device>, since: Time, before: Time) returns (count: HeartbeatLossCount)
    ensures count == CountOf(devices, since, before)
    ensures count.recent == |Filter(devices, (d: Device) => HeardBetween(d, since, None))|
    ensures count.lost == |Filter(devices, (d: Device) => HeardBetween(d, since, Some(before)))|
  {
    count := HeartbeatLossCount(0, 0);
    for i := 0 to |devices|
      invariant count == CountOf(devices[..i], since, before)
    {
      assert devices[..i + 1] == devices[..i] + [devices[i]];
      FilterAppend(devices[..i], devices[i], (d: Device) => IsRecent(d, since));
      FilterAppend(devices[..i], devices[i], (d: Device) => IsLost(d, since, before));
      if IsRecent(devices[i], since) {
        count := count.(recent := count.recent + 1);
        if devices[i].lastHeartbeatAt.value < before {
          count := count.(lost := count.lost + 1);
        }
      }
    }
    assert devices[..|devices|] == devices;
    FilterAgrees(devices, (d: Device) => HeardBetween(d, since, None), (d: Device) => IsRecent(d, since));
    FilterAgrees(devices, (d: Device) => HeardBetween(d, since, Some(before)),
                 (d: Device) => IsLost(d, since, before));
  }

  /** Point j of device i has the given ID. */
  predicate PointAt(devices: seq<Device>, i: int, j: int, id: Id) {
    0 <= i < |devices| && 0 <= j < |devices[i].points| && devices[i].points[j].id == id
  }

  predicate Earlier(k: int, l: int, i: int, j: int) {
    k < i || (k == i && l < j)
  }

  /** No later point of the devices has the ID. */
  ghost predicate IsLast(devices: seq<Device>, i: int, j: int, id: Id) {
    forall k, l :: PointAt(devices, k, l, id) ==> !Earlier(i, j, k, l)
  }

  /** The states that the points before point j of device i give. */
  function StatesBefore(devices: seq<Device>, now: Time, hold: Hold, i: nat, j: nat): map<Id, ObservationPointState>
    requires (i < |devices| && j <= |devices[i].points|) || (i == |devices| && j == 0)
    decreases i, j
  {
    if j > 0 then
      var point := devices[i].points[j - 1];
      StatesBefore(devices, now, hold, i, j - 1)[point.id := hold.StateOf(devices[i], point, now)]
    else if i > 0 then StatesBefore(devices, now, hold, i - 1, |devices[i - 1].points|)
    else map[]
  }

  function StatesOf(devices: seq<Device>, now: Time, hold: Hold): map<Id, ObservationPointState> {
    StatesBefore(devices, now, hold, |devices|, 0)
  }

  method ObservationPointStates(devices: seq<Device>, now: Time,
      hold: Hold) returns (states: map<Id, ObservationPointState>)
    ensures states == StatesOf(devices, now, hold)
  {
    states := map[];
    for i := 0 to |devices|
      invariant states == StatesBefore(devices, now, hold, i, 0)
    {
      var device := devices[i];
      var connected := hold.Connected(device, now);
      for j := 0 to |device.points|
        invariant states == StatesBefore(devices, now, hold, i, j)
      {
        var point := device.points[j];
        states := states[point.id :=
          if device.unregistered || !point.enabled then Disabled else if !connected then Offline else Active];
      }
    }
  }

  /** The device was heard within the timeout, or is held as connected. */
  predicate HeardOrHeld(d: Device, hold: Hold, now: Time) {
    && d.lastHeartbeatAt.Some? && !d.unregistered
    && (|| (d.kind.ObservationPage? && now <= d.lastHeartbeatAt.value + hold.policy.heartbeatTimeout)
        || (&& hold.startedAt.Some? && now < hold.startedAt.value + hold.policy.maxDuration
            && hold.startedAt.value <= d.lastHeartbeatAt.value + 2 * hold.policy.heartbeatTimeout))
  }

  /** Every point of the devices has a state, and the last point of an ID decides: it is disabled
      when it or its device is, and otherwise active exactly when its device is connected: a page heard
      within the timeout, or held as one that was heard within two timeouts before the hold started. */
  lemma {:induction false} StateOfEachPoint(devices: seq<Device>, now: Time, hold: Hold, id: Id)
    ensures id in StatesOf(devices, now, hold) <==> exists i, j :: PointAt(devices, i, j, id)
    ensures forall i, j :: PointAt(devices, i, j, id) && IsLast(devices, i, j, id)
              ==> StatesOf(devices, now, hold)[id] ==
                  if devices[i].unregistered || !devices[i].points[j].enabled then Disabled
                  else if HeardOrHeld(devices[i], hold, now) then Active else Offline
  {
    StatesBeforeMean(devices, now, hold, |devices|, 0, id);
  }

  lemma {:induction false} StatesBeforeMean(devices: seq<Device>, now: Time, hold: Hold, i: nat, j: nat, id: Id)
    requires (i < |devices| && j <= |devices[i].points|) || (i == |devices| && j == 0)
    ensures var states := StatesBefore(devices, now, hold, i, j);
      && (id in states <==> exists k, l :: PointAt(devices, k, l, id) && Earlier(k, l, i, j))
      && (forall k, l :: PointAt(devices, k, l, id) && Earlier(k, l, i, j) && IsLast(devices, k, l, id)
            ==> states[id] == hold.StateOf(devices[k], devices[k].points[l], now))
    decreases i, j
  {
    if j > 0 {
      StatesBeforeMean(devices, now, hold, i, j - 1, id);
      EarlierByOne(i, j);
      hide Earlier;
      assert PointAt(devices, i, j - 1, id) <==> devices[i].points[j - 1].id == id;
    } else if i > 0 {
      StatesBeforeMean(devices, now, hold, i - 1, |devices[i - 1].points|, id);
      EarlierDevices(devices, i, id);
      hide Earlier;
    }
  }

  lemma {:induction false} EarlierByOne(i: int, j: int)
    ensures forall k, l :: Earlier(k, l, i, j) <==> Earlier(k, l, i, j - 1) || (k == i && l == j - 1)
    ensures !Earlier(i, j - 1, i, j - 1)
  {
    forall k, l
      ensures Earlier(k, l, i, j) <==> Earlier(k, l, i, j - 1) || (k == i && l == j - 1)
    {
    }
  }

  lemma {:induction false} EarlierDevices(devices: seq<Device>, i: int, id: Id)
    requires 0 < i <= |devices|
    ensures forall k, l :: PointAt(devices, k, l, id)
              ==> (Earlier(k, l, i, 0) <==> Earlier(k, l, i - 1, |devices[i - 1].points|))
  {
  }

  /** At the start of a hold, the devices held as connected are exactly those counted as recent. */
  lemma {:induction false} ConnectedAtStart(policy: Policy, device: Device, start: Time)
    requires policy.Configured() && policy.heartbeatTimeout >= 0
    requires device.kind.CameraDevice? ==> device.lastHeartbeatAt == None
    ensures Hold(policy, Some(start)).Connected(device, start) <==> IsRecent(device, policy.RecentSince(start))
  {
  }

  /** When no heartbeat is later than `before`, all recent devices are lost. */
  lemma {:induction false} AllRecentAreLost(devices: seq<Device>, since: Time, before: Time)
    requires forall d :: d in devices && d.lastHeartbeatAt.Some? ==> d.lastHeartbeatAt.value < before
    ensures CountOf(devices, since, before).lost == CountOf(devices, since, before).recent
  {
    FilterAgrees(devices, (d: Device) => IsRecent(d, since), (d: Device) => IsLost(d, since, before));
  }

  lemma {:induction false} LostEnough(policy: Policy, count: HeartbeatLossCount)
    requires policy.Configured() && count.lost == count.recent
    ensures policy.Suspected(count) <==> policy.Enough(count)
  {
    assert policy.threshold * count.recent as real <= 1.0 * count.recent as real;
  }

  /** Without heartbeats since the timeout before its start, a hold is kept until its longest
      duration is over, ended then, and renewed exactly when enough devices are still recent. */
  lemma {:induction false} SilentHold(policy: Policy, devices: seq<Device>, start: Time, now: Time)
    requires policy.Configured() && start < now
    requires forall d :: d in devices && d.lastHeartbeatAt.Some? ==> d.lastHeartbeatAt.value <= policy.LostBefore(start)
    ensures var count := CountOf(devices, policy.RecentSince(now), policy.LostBefore(now));
      && (policy.Decide(now, Some(start), count).end <==> now >= start + policy.maxDuration)
      && (policy.Decide(now, Some(start), count).start
          <==> now >= start + policy.maxDuration && |Recents(devices, policy.RecentSince(now))| >= policy.minDevices)
  {
    AllRecentAreLost(devices, policy.RecentSince(now), policy.LostBefore(now));
    LostEnough(policy, CountOf(devices, policy.RecentSince(now), policy.LostBefore(now)));
  }

  /** A longest duration beyond the timeout leaves no device recent, so nothing is renewed. */
  lemma {:induction false} SilentHoldIsNotRenewed(policy: Policy, devices: seq<Device>, start: Time, now: Time)
    requires policy.Configured() && start < now
    requires policy.maxDuration > policy.heartbeatTimeout
    requires forall d :: d in devices && d.lastHeartbeatAt.Some? ==> d.lastHeartbeatAt.value <= policy.LostBefore(start)
    ensures var count := CountOf(devices, policy.RecentSince(now), policy.LostBefore(now));
      && !policy.Decide(now, Some(start), count).start
      && (now >= start + policy.maxDuration ==> !policy.Decide(now, None, count).start)
  {
    SilentHold(policy, devices, start, now);
    if now >= start + policy.maxDuration {
      FilterNone(devices, (d: Device) => IsRecent(d, policy.RecentSince(now)));
    }
  }

  /** An evaluation renews a hold although no device sent a heartbeat since the timeout before
      the start of the hold. */
  ghost predicate RenewsSilentHold(policy: Policy, devices: seq<Device>, start: Time, now: Time) {
    && start < now
    && (forall d :: d in devices && d.lastHeartbeatAt.Some? ==> d.lastHeartbeatAt.value <= policy.LostBefore(start))
    && policy.Decide(now, Some(start), CountOf(devices, policy.RecentSince(now), policy.LostBefore(now))).start
  }

  /** No silent hold is ever renewed exactly when holds outlast the timeout. At the timeout itself
      a device whose last heartbeat was just that long before the start is still recent. */
  lemma {:induction false} SilentHoldsAreNeverRenewedExactlyWhen(policy: Policy)
    requires policy.Configured()
    ensures (forall devices, start, now :: !RenewsSilentHold(policy, devices, start, now))
       <==> policy.maxDuration > policy.heartbeatTimeout
  {
    if policy.maxDuration > policy.heartbeatTimeout {
      forall devices, start, now | RenewsSilentHold(policy, devices, start, now)
        ensures false
      {
        SilentHoldIsNotRenewed(policy, devices, start, now);
      }
    } else {
      var devices := SilentDevices(policy.minDevices, policy.LostBefore(0));
      SilentHold(policy, devices, 0, policy.maxDuration);
      AllRecent(devices, policy.RecentSince(policy.maxDuration));
      assert RenewsSilentHold(policy, devices, 0, policy.maxDuration);
    }
  }

  /** Pages whose last heartbeat was at `at`. */
  function SilentDevices(n: nat, at: Time): seq<Device> {
    seq(n, i requires 0 <= i < n => Device(seq(i, _ => 'd'), "e", "n", false, Some(at), ObservationPage, [], []))
  }

  lemma {:induction false} AllRecent(devices: seq<Device>, since: Time)
    requires forall d :: d in devices ==> IsRecent(d, since)
    ensures |Recents(devices, since)| == |devices|
  {
    if |devices| > 0 {
      assert devices == devices[..|devices| - 1] + [devices[|devices| - 1]];
      AllRecent(devices[..|devices| - 1], since);
    }
  }
}
