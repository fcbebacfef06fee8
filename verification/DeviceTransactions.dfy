/** Transactions that register, configure and unregister edge devices, statement by statement.
    Each statement sees what is committed; what a transaction writes is seen when it commits, and
    the rows it locks stay locked until then. */
module DeviceTransactions {
  import opened Basics
  import opened Devices
  import opened EdgeDevices

  /** Devices, whose links are kept apart: the linked point of each camera. */
  datatype Database = Database(devices: map<Id, Device>, links: map<Id, Id>)

  predicate Owns(db: Database, d: Id, p: Id) {
    d in db.devices && db.devices[d].HasPoint(p)
  }

  predicate IsLinked(db: Database, p: Id) {
    exists c :: c in db.links && db.links[c] == p
  }

  /** A device just drawn up: a page with its points, or a camera with its one link. */
  ghost predicate IsNew(d: Device) {
    && !d.unregistered && d.lastHeartbeatAt == None
    && (d.kind.ObservationPage? ==> d.links == [])
    && (d.kind.CameraDevice? ==> d.points == [] && |d.links| == 1 && d.links[0].cameraId == d.id)
  }

  /** A new device is accepted exactly when its names are there, and only a camera links to a point. A page
      has one enabled point for each name, never active before; a camera has one link, to that point. */
  lemma {:induction false} NewDeviceIsNew(tenantId: Id, eventId: Id, name: string, kind: DeviceKind,
      pointNames: seq<string>, linkedPoint: Id, id: Id, pointIds: seq<Id>)
    requires |pointIds| == |pointNames|
    ensures var r := NewDevice(tenantId, eventId, name, kind, pointNames, linkedPoint, id, pointIds);
      && (r.Ok? <==>
            && tenantId != "" && eventId != "" && name != "" && (kind.CameraDevice? <==> linkedPoint != "")
            && (if kind.CameraDevice? then pointNames == [] else forall n :: n in pointNames ==> n != ""))
      && (r.Ok? ==>
            && IsNew(r.value) && r.value.id == id && r.value.eventId == eventId && r.value.kind == kind
            && r.value.name == name && |r.value.points| == |pointNames|
            && (forall i :: 0 <= i < |pointNames| ==>
                  r.value.points[i] == ObservationPoint(pointIds[i], pointNames[i], true, None))
            && r.value.links == if kind.CameraDevice? then [CameraLink(id, linkedPoint)] else [])
  {
    if i :| 0 <= i < |pointNames| && pointNames[i] == "" {
      assert "" in pointNames;
    }
  }

  /** The unique indexes over device IDs and point IDs admit the device. */
  ghost predicate Fits(db: Database, d: Device) {
    && d.id !in db.devices
    && (forall i, j :: 0 <= i < j < |d.points| ==> d.points[i].id != d.points[j].id)
    && (forall i, e :: 0 <= i < |d.points| ==> !Owns(db, e, d.points[i].id))
  }

  datatype Request =
    | RegisterCamera(device: Device)
    | Unregister(id: Id, eventId: Id)
    | Configure(pointId: Id, eventId: Id, name: string, enabled: bool)

  /** How far a transaction got. */
  datatype Stage =
    | Starting
    | Locked(id: Id)
    | Loaded(device: Device)
    | Free(device: Device)
    | Cascading(page: Device, pending: seq<Id>, visited: set<Id>, doomed: map<Id, Device>)

  datatype Transaction = Transaction(request: Request, stage: Stage)

  /** Which transaction holds the lock of each locked device row. */
  datatype System = System(db: Database, running: map<Id, Transaction>, locks: map<Id, Id>)

  const START := System(Database(map[], map[]), map[], map[])

  /** Actions of the system. A step carries the links of a page in the order they are listed;
      a heartbeat carries when its points were last active. */
  datatype Action =
    | RegisterPage(device: Device)
    | Beat(page: Id, at: Time, activeAt: map<Id, Time>)
    | Begin(transaction: Id, request: Request)
    | Step(transaction: Id, listing: seq<CameraLink>)
    | Abort(transaction: Id)

  /** The point that the transaction looks its first row up by. */
  function PointOf(r: Request): Id
    requires r.Configure? || (r.RegisterCamera? && |r.device.links| == 1)
  {
    if r.Configure? then r.pointId else r.device.links[0].pointId
  }

  ghost predicate WellFormed(r: Request) {
    r.RegisterCamera? ==> IsNew(r.device) && r.device.kind.CameraDevice?
  }

  function Held(stage: Stage): set<Id> {
    match stage
    case Starting => {}
    case Locked(id) => {id}
    case Loaded(device) => {device.id}
    case Free(device) => {device.id}
    case Cascading(page, _, visited, _) => {page.id} + visited
  }

  /** d is the row that a starting transaction locks. */
  ghost predicate IsFirst(db: Database, r: Request, d: Id)
    requires WellFormed(r)
  {
    if r.Unregister? then d == r.id && d in db.devices else Owns(db, d, PointOf(r))
  }

  /** The row that the transaction locks next. */
  ghost function NextLock(db: Database, tx: Transaction): Option<Id>
    requires WellFormed(tx.request)
  {
    match tx.stage
    case Starting => if d :| IsFirst(db, tx.request, d) then Some(d) else None
    case Cascading(_, pending, _, _) => if |pending| > 0 then Some(pending[0]) else None
    case _ => None
  }

  /** Ending a transaction: what it wrote is committed and its locks are released. */
  function Finish(s: System, t: Id, db: Database): System {
    System(db, s.running - {t}, map d | d in s.locks && s.locks[d] != t :: s.locks[d])
  }

  function Drop(s: System, t: Id): System {
    Finish(s, t, s.db)
  }

  function Advance(s: System, t: Id, stage: Stage): System
    requires t in s.running
  {
    s.(running := s.running[t := s.running[t].(stage := stage)])
  }

  function Lock(s: System, t: Id, d: Id): System {
    s.(locks := s.locks[d := t])
  }

  /** The listing holds the links of the points of the page whose cameras are registered. */
  ghost predicate IsListing(db: Database, page: Device, listing: seq<CameraLink>) {
    && (forall i :: 0 <= i < |listing| ==>
          && listing[i].cameraId in db.links && db.links[listing[i].cameraId] == listing[i].pointId
          && page.HasPoint(listing[i].pointId) && Registered(db, listing[i].cameraId))
    && (forall c :: c in db.links && page.HasPoint(db.links[c]) && Registered(db, c)
          ==> exists i :: 0 <= i < |listing| && listing[i].cameraId == c)
  }

  predicate Registered(db: Database, c: Id) {
    c in db.devices && db.devices[c].kind.CameraDevice? && !db.devices[c].unregistered
  }

  function Created(db: Database, d: Device): Database {
    Database(db.devices[d.id := d.(links := [])],
             if |d.links| == 0 then db.links else db.links[d.id := d.links[0].pointId])
  }

  /** Saving a device: its row and its points, and the links of a camera. */
  function Saved(db: Database, d: Device): Database {
    Database(db.devices[d.id := d.(links := [])], if d.kind.CameraDevice? then db.links - {d.id} else db.links)
  }

  /** Saving the unregistered cameras, then the unregistered page. */
  function Cascaded(db: Database, page: Device, doomed: map<Id, Device>): Database {
    Saved(Database(db.devices + (map c | c in doomed :: AfterUnregister(doomed[c])), db.links - doomed.Keys),
          AfterUnregister(page))
  }

  function Configured(d: Device, r: Request): Device
    requires r.Configure?
  {
    AfterUpdate(d, r.pointId, r.name, r.enabled)
  }

  function Beaten(d: Device, at: Time, activeAt: map<Id, Time>): Device {
    d.(lastHeartbeatAt := Some(at), points := ActiveAt(d.points, activeAt))
  }

  function ActiveAt(points: seq<ObservationPoint>, activeAt: map<Id, Time>): (r: seq<ObservationPoint>)
    ensures |r| == |points|
    ensures forall i :: 0 <= i < |points| ==>
              r[i] == if points[i].id in activeAt
                      then points[i].(lastActiveAt := Some(activeAt[points[i].id])) else points[i]
  {
    seq(|points|, i requires 0 <= i < |points| =>
      if points[i].id in activeAt then points[i].(lastActiveAt := Some(activeAt[points[i].id])) else points[i])
  }

  /** The first row: locked once nobody else holds it. An unregistration reads it as it locks it. */
  ghost function StepStarting(s: System, t: Id): System
    requires t in s.running && WellFormed(s.running[t].request)
  {
    var tx := s.running[t];
    match NextLock(s.db, tx)
    case None => Drop(s, t)
    case Some(d) =>
      if d in s.locks then s
      else if tx.request.Unregister? then
        if d !in s.db.devices || s.db.devices[d].eventId != tx.request.eventId || s.db.devices[d].unregistered
        then Drop(s, t)
        else Advance(Lock(s, t, d), t, Loaded(s.db.devices[d]))
      else Advance(Lock(s, t, d), t, Locked(d))
  }

  /** Registering a camera and configuring a point read the row that they have locked. */
  ghost function StepLocked(s: System, t: Id, d: Id): System
    requires t in s.running
  {
    if d !in s.db.devices then Drop(s, t)
    else
      var device := s.db.devices[d];
      match s.running[t].request
      case RegisterCamera(camera) =>
        if device.eventId != camera.eventId || device.kind.CameraDevice? || device.unregistered then Drop(s, t)
        else Advance(s, t, Loaded(device))
      case Configure(_, eventId, name, _) =>
        if device.eventId != eventId || device.unregistered || name == "" then Drop(s, t)
        else Advance(s, t, Loaded(device))
      case Unregister(_, _) => Drop(s, t)
  }

  ghost function StepLoaded(s: System, t: Id, device: Device, listing: seq<CameraLink>): System
    requires t in s.running && WellFormed(s.running[t].request)
  {
    var r := s.running[t].request;
    match r
    case RegisterCamera(_) => if IsLinked(s.db, PointOf(r)) then Drop(s, t) else Advance(s, t, Free(device))
    case Configure(_, _, _, _) => Finish(s, t, Saved(s.db, Configured(device, r)))
    case Unregister(_, _) =>
      if device.kind.CameraDevice? then Finish(s, t, Saved(s.db, AfterUnregister(device)))
      else if !IsListing(s.db, device, listing) then s
      else Advance(s, t, Cascading(device, CascadeOrder(listing), {}, map[]))
  }

  /** The insertion violates a unique index when the device or its link does not fit. */
  ghost predicate Violates(db: Database, d: Device)
    requires |d.links| == 1
  {
    !Fits(db, d) || IsLinked(db, d.links[0].pointId) || d.id in db.links
  }

  ghost function StepFree(s: System, t: Id): System
    requires t in s.running && WellFormed(s.running[t].request)
  {
    var r := s.running[t].request;
    if !r.RegisterCamera? || Violates(s.db, r.device) then Drop(s, t) else Finish(s, t, Created(s.db, r.device))
  }

  /** The next linked camera is locked and read; one that is unregistered already is skipped. */
  ghost function StepCascading(s: System, t: Id, stage: Stage): System
    requires t in s.running && stage.Cascading?
  {
    if |stage.pending| == 0 then Finish(s, t, Cascaded(s.db, stage.page, stage.doomed))
    else
      var c := stage.pending[0];
      if c in s.locks then s
      else if c !in s.db.devices then Drop(s, t)
      else
        var next := stage.(pending := stage.pending[1..], visited := stage.visited + {c});
        var camera := s.db.devices[c];
        Advance(Lock(s, t, c), t, if camera.unregistered then next else next.(doomed := stage.doomed[c := camera]))
  }

  ghost predicate Enabled(s: System, a: Action) {
    match a
    case RegisterPage(d) => IsNew(d) && d.kind.ObservationPage? && Fits(s.db, d)
    case Beat(d, _, _) =>
      d in s.db.devices && d !in s.locks && !s.db.devices[d].unregistered && s.db.devices[d].kind.ObservationPage?
    case Begin(t, r) => t !in s.running && WellFormed(r)
    case Step(t, _) => t in s.running && WellFormed(s.running[t].request)
    case Abort(t) => t in s.running
  }

  ghost function Next(s: System, a: Action): System
    requires Enabled(s, a)
  {
    match a
    case RegisterPage(d) => s.(db := Created(s.db, d))
    case Beat(d, at, activeAt) => s.(db := s.db.(devices := s.db.devices[d := Beaten(s.db.devices[d], at, activeAt)]))
    case Begin(t, r) => s.(running := s.running[t := Transaction(r, Starting)])
    case Abort(t) => Drop(s, t)
    case Step(t, listing) =>
      match s.running[t].stage
      case Starting => StepStarting(s, t)
      case Locked(d) => StepLocked(s, t, d)
      case Loaded(d) => StepLoaded(s, t, d, listing)
      case Free(_) => StepFree(s, t)
      case Cascading(_, _, _, _) => StepCascading(s, t, s.running[t].stage)
  }

  /** Actions that are not enabled change nothing. */
  ghost function Exec(actions: seq<Action>): System {
    if |actions| == 0 then START
    else
      var s := Exec(actions[..|actions| - 1]);
      var a := actions[|actions| - 1];
      if Enabled(s, a) then Next(s, a) else s
  }
}
