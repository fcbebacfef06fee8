/** Edge devices as values: observation pages with their points, and cameras with their links. */
module Devices {
  import opened Basics

  datatype ObservationPoint = ObservationPoint(id: Id, name: string, enabled: bool, lastActiveAt: Option<Time>)

  datatype DeviceKind = ObservationPage | CameraDevice

  datatype CameraLink = CameraLink(cameraId: Id, pointId: Id)

  datatype Device = Device(
    id: Id,
    eventId: Id,
    name: string,
    unregistered: bool,
    lastHeartbeatAt: Option<Time>,
    kind: DeviceKind,
    points: seq<ObservationPoint>,
    links: seq<CameraLink>)
  {
    predicate Online(now: Time, timeout: Duration) {
      && kind.ObservationPage? && !unregistered
      && lastHeartbeatAt.Some? && now - lastHeartbeatAt.value <= timeout
    }

    predicate HasPoint(pointId: Id) {
      exists i :: 0 <= i < |points| && points[i].id == pointId
    }
  }
}
