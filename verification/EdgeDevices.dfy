/** An edge device that is registered, configured, heard from and unregistered. */
module EdgeDevices {
  import opened Basics
  import opened Seqs
  import opened Sorting
  import opened SensorSets
  import opened Devices

  datatype DeviceError =
    | TenantRequired | EventRequired | NameRequired | PageLinkedPointNotAllowed | PointNameRequired
    | CameraPointNamesNotAllowed | CameraLinkedPointRequired | EdgeDeviceUnregistered
    | PointNotFound | CameraUnsupported

  datatype Result<+T> = Ok(value: T) | Err(error: DeviceError)

  /** A new device. Names come trimmed, and the IDs of the device and its points are drawn by
      the caller; a camera links to one point, and a page owns its points. */
  function NewDevice(tenantId: Id, eventId: Id, name: string, kind: DeviceKind, pointNames: seq<string>,
      linkedPoint: Id,
                     id: Id, pointIds: seq<Id>): Result<Device>
    requires |pointIds| == |pointNames|
  {
    if tenantId == "" then Err(TenantRequired)
    else if eventId == "" then Err(EventRequired)
    else if name == "" then Err(NameRequired)
    else
      match kind
      case ObservationPage =>
        if linkedPoint != "" then Err(PageLinkedPointNotAllowed)
        else if exists i :: 0 <= i < |pointNames| && pointNames[i] == "" then Err(PointNameRequired)
        else Ok(Device(id, eventId, name, false, None, kind,
                       seq(|pointNames|, i requires 0 <= i < |pointNames| =>
                         ObservationPoint(pointIds[i], pointNames[i], true, None)), []))
      case CameraDevice =>
        if |pointNames| != 0 then Err(CameraPointNamesNotAllowed)
        else if linkedPoint == "" then Err(CameraLinkedPointRequired)
        else Ok(Device(id, eventId, name, false, None, kind, [], [CameraLink(id, linkedPoint)]))
  }

  function Disabled(points: seq<ObservationPoint>): (r: seq<ObservationPoint>)
    ensures |r| == |points|
    ensures forall i :: 0 <= i < |points| ==> r[i] == points[i].(enabled := false)
  {
    seq(|points|, i requires 0 <= i < |points| => points[i].(enabled := false))
  }

  /** Unregistering a page disables all its points; unregistering a camera drops its links. */
  function AfterUnregister(d: Device): Device {
    if d.kind.CameraDevice? then d.(unregistered := true, links := [])
    else d.(unregistered := true, points := Disabled(d.points))
  }

  /** Where the first point with the ID is; the number of points when there is none. */
  function IndexOf(points: seq<ObservationPoint>, id: Id): (i: nat)
    ensures i <= |points|
    ensures i < |points| ==> points[i].id == id
    ensures forall j :: 0 <= j < i ==> points[j].id != id
  {
    if |points| == 0 then 0
    else
      var i := IndexOf(points[..|points| - 1], id);
      assert forall j :: 0 <= j < |points| - 1 ==> points[j] == points[..|points| - 1][j];
      if i < |points| - 1 then i else if points[|points| - 1].id == id then i else i + 1
  }

  /** The first point with the ID renamed, and enabled or disabled. */
  function AfterUpdate(d: Device, pointId: Id, name: string, enabled: bool): Device {
    var i := IndexOf(d.points, pointId);
    if i == |d.points| then d else d.(points := d.points[i := d.points[i].(name := name, enabled := enabled)])
  }

  function Heard(points: seq<ObservationPoint>, activeIds: seq<Id>, now: Time): (r: seq<ObservationPoint>)
    ensures |r| == |points|
    ensures forall i :: 0 <= i < |points| ==> r[i] == HeardPoint(points[i], activeIds, now)
  {
    seq(|points|, i requires 0 <= i < |points| => HeardPoint(points[i], activeIds, now))
  }

  function HeardPoint(p: ObservationPoint, activeIds: seq<Id>, now: Time): ObservationPoint {
    if p.id in activeIds then p.(lastActiveAt := Some(now)) else p
  }

  predicate HasPoints(d: Device, ids: seq<Id>) {
    forall i :: 0 <= i < |ids| ==> d.HasPoint(ids[i])
  }

  function Effective(points: seq<ObservationPoint>, connected: bool): (r: seq<ObservationPoint>)
    ensures |r| == |points|
    ensures forall i :: 0 <= i < |points| ==> r[i] == points[i].(enabled := points[i].enabled && connected)
  {
    seq(|points|, i requires 0 <= i < |points| => points[i].(enabled := points[i].enabled && connected))
  }

  /** No earlier point has the ID. */
  predicate FirstWith(points: seq<ObservationPoint>, id: Id, i: int) {
    forall j :: 0 <= j < i < |points| ==> points[j].id != id
  }

  class EdgeDevice {
    const id: Id
    const eventId: Id
    const kind: DeviceKind
    const points: array<ObservationPoint>
    var name: string
    var unregistered: bool
    var lastHeartbeatAt: Option<Time>
    var links: seq<CameraLink>

    function Value(): Device
      reads this, points
    {
      Device(id, eventId, name, unregistered, lastHeartbeatAt, kind, points[..], links)
    }

    constructor (d: Device)
      ensures Value() == d && fresh(points)
    {
      id, eventId, kind, name := d.id, d.eventId, d.kind, d.name;
      unregistered, lastHeartbeatAt, links := d.unregistered, d.lastHeartbeatAt, d.links;
      points := new ObservationPoint[|d.points|](i requires 0 <= i < |d.points| => d.points[i]);
      new;
      assert points[..] == d.points;
    }

    method Unregister() returns (r: Result<Device>)
      modifies this, points
      ensures old(unregistered) ==> r == Err(EdgeDeviceUnregistered) && Value() == old(Value())
      ensures !old(unregistered) ==> Value() == AfterUnregister(old(Value())) && r == Ok(Value())
      ensures unregistered && name == old(name) && lastHeartbeatAt == old(lastHeartbeatAt)
      ensures links == if kind.CameraDevice? && !old(unregistered) then [] else old(links)
      ensures forall i :: 0 <= i < points.Length ==>
                points[i] == if kind.CameraDevice? || old(unregistered) then old(points[i])
                             else old(points[i]).(enabled := false)
    {
      if unregistered {
        return Err(EdgeDeviceUnregistered);
      }
      unregistered := true;
      if kind.CameraDevice? {
        links := [];
        return Ok(Value());
      }
      ghost var before := points[..];
      for i := 0 to points.Length
        modifies points
        invariant forall j :: 0 <= j < i ==> points[j] == before[j].(enabled := false)
        invariant forall j :: i <= j < points.Length ==> points[j] == before[j]
      {
        points[i] := points[i].(enabled := false);
      }
      assert points[..] == Disabled(before);
      r := Ok(Value());
    }

    /** The name comes trimmed; the first point with the ID is renamed, and enabled or disabled. */
    method UpdateObservationPoint(pointId: Id, newName: string, enabled: bool) returns (r: Result<ObservationPoint>)
      modifies points
      ensures var i := IndexOf(old(points[..]), pointId);
        if unregistered then r == Err(EdgeDeviceUnregistered) && Value() == old(Value())
        else if newName == "" then r == Err(PointNameRequired) && Value() == old(Value())
        else if i == points.Length then r == Err(PointNotFound) && Value() == old(Value())
        else r == Ok(points[i]) && Value() == AfterUpdate(old(Value()), pointId, newName, enabled)
      ensures forall i :: 0 <= i < points.Length ==>
                points[i] == if r.Ok? && old(points[i]).id == pointId && FirstWith(old(points[..]), pointId, i)
                             then ObservationPoint(pointId, newName, enabled, old(points[i]).lastActiveAt)
                             else old(points[i])
    {
      if unregistered {
        return Err(EdgeDeviceUnregistered);
      }
      if newName == "" {
        return Err(PointNameRequired);
      }
      for i := 0 to points.Length
        invariant points[..] == old(points[..])
        invariant forall j :: 0 <= j < i ==> points[j].id != pointId
      {
        if points[i].id != pointId {
          continue;
        }
        points[i] := points[i].(name := newName, enabled := enabled);
        assert points[..] == old(points[..])[i := points[i]];
        return Ok(points[i]);
      }
      r := Err(PointNotFound);
    }

    method HasObservationPoint(pointId: Id) returns (has: bool)
      ensures has <==> Value().HasPoint(pointId)
    {
      for i := 0 to points.Length
        invariant forall j :: 0 <= j < i ==> points[j].id != pointId
      {
        if points[i].id == pointId {
          assert Value().points[i].id == pointId;
          return true;
        }
      }
      has := false;
    }

    /** All active IDs are checked before anything is written. */
    method Heartbeat(now: Time, activeIds: seq<Id>) returns (r: Result<Device>)
      modifies this, points
      ensures var d := old(Value());
        if d.kind.CameraDevice? then r == Err(CameraUnsupported) && Value() == d
        else if d.unregistered then r == Err(EdgeDeviceUnregistered) && Value() == d
        else if !HasPoints(d, activeIds) then r == Err(PointNotFound) && Value() == d
        else Value() == d.(lastHeartbeatAt := Some(now), points := Heard(d.points, activeIds, now)) && r == Ok(Value())
      ensures forall i :: 0 <= i < points.Length ==>
                points[i] == if r.Ok? && old(points[i]).id in activeIds
                             then old(points[i]).(lastActiveAt := Some(now)) else old(points[i])
    {
      if kind.CameraDevice? {
        return Err(CameraUnsupported);
      }
      if unregistered {
        return Err(EdgeDeviceUnregistered);
      }
      ghost var d := Value();
      for i := 0 to |activeIds|
        invariant Value() == d && forall j :: 0 <= j < i ==> d.HasPoint(activeIds[j])
      {
        var has := HasObservationPoint(activeIds[i]);
        if !has {
          assert !d.HasPoint(activeIds[i]) && !HasPoints(d, activeIds);
          return Err(PointNotFound);
        }
      }
      lastHeartbeatAt := Some(now);
      ghost var before := points[..];
      for i := 0 to points.Length
        modifies points
        invariant forall j :: 0 <= j < i ==> points[j] == HeardPoint(before[j], activeIds, now)
        invariant forall j :: i <= j < points.Length ==> points[j] == before[j]
      {
        if points[i].id !in activeIds {
          continue;
        }
        points[i] := points[i].(lastActiveAt := Some(now));
      }
      assert points[..] == Heard(before, activeIds, now);
      r := Ok(Value());
    }

    /** Points of a device that is not connected are shown as disabled. */
    method ApplyEffectiveEnabled(connected: bool)
      modifies points
      ensures points[..] == Effective(old(points[..]), connected)
      ensures forall i :: 0 <= i < points.Length ==>
                points[i] == if connected then old(points[i]) else old(points[i]).(enabled := false)
    {
      for i := 0 to points.Length
        invariant forall j :: 0 <= j < i
                    ==> points[j] == old(points[..])[j].(enabled := old(points[..])[j].enabled && connected)
        invariant forall j :: i <= j < points.Length ==> points[j] == old(points[..])[j]
      {
        points[i] := points[i].(enabled := points[i].enabled && connected);
      }
    }
  }

  /** The cameras to unregister with a page: each once, in ascending order. */
  function CascadeOrder(links: seq<CameraLink>): seq<Id> {
    SortedDistinct(CamerasOf(links), Before)
  }

  function CamerasOf(links: seq<CameraLink>): seq<Id> {
    Map(links, (l: CameraLink) => l.cameraId)
  }

  lemma {:induction false} CascadeOrderMeans(links: seq<CameraLink>)
    ensures StrictlySorted(CascadeOrder(links), Before)
    ensures forall c :: c in CascadeOrder(links) <==> exists i :: 0 <= i < |links| && links[i].cameraId == c
  {
    IdOrder();
    SortedDistinctIsSorted(CamerasOf(links), Before);
    forall c
      ensures c in CascadeOrder(links) <==> exists i :: 0 <= i < |links| && links[i].cameraId == c
    {
      if c in CascadeOrder(links) {
        var i :| 0 <= i < |links| && CamerasOf(links)[i] == c;
        assert links[i].cameraId == c;
      }
      if i :| 0 <= i < |links| && links[i].cameraId == c {
        assert CamerasOf(links)[i] == c;
      }
    }
  }
}
