/** What device transactions write when they commit, and that nothing but another one keeps them from it. */
module DeviceEffects {
  import opened Basics
  import opened Devices
  import opened EdgeDevices
  import opened DeviceTransactions
  import opened DeviceSafety
  import opened DeviceRuns

  /** The transaction is over, and only what it had locked is free again. */
  ghost predicate IsOver(s: System, n: System, t: Id) {
    && n.running == s.running - {t}
    && forall d :: (d in n.locks <==> d in s.locks && s.locks[d] != t) && (d in n.locks ==> n.locks[d] == s.locks[d])
  }

  /** The row of an unregistered page: all its points are disabled. */
  ghost predicate IsGonePage(d: Device, e: Device) {
    && e == d.(unregistered := true, points := e.points) && |e.points| == |d.points|
    && forall i :: 0 <= i < |d.points| ==> e.points[i] == d.points[i].(enabled := false)
  }

  /** The camera is linked to a point of the page. */
  predicate LinkedTo(db: Database, c: Id, page: Id) {
    c in db.links && Owns(db, page, db.links[c])
  }

  /** The page is unregistered with its points disabled, together with exactly the cameras linked to them,
      whose links are gone; all else is as it was. */
  ghost predicate PageIsUnregistered(before: Database, after: Database, page: Id) {
    && page in before.devices && after.devices.Keys == before.devices.Keys
    && IsGonePage(before.devices[page], after.devices[page])
    && (forall d :: d in before.devices && d != page ==>
          after.devices[d] == if LinkedTo(before, d, page) then before.devices[d].(unregistered := true)
                              else before.devices[d])
    && (forall c :: LinkedTo(before, c, page) ==> c in before.devices && c != page)
    && (forall c :: c in after.links <==> c in before.links && !LinkedTo(before, c, page))
    && (forall c :: c in after.links ==> after.links[c] == before.links[c])
  }

  /** A cascade with nothing left to lock unregisters the page, wherever it is reached. */
  lemma {:induction false} PageUnregistered(actions: seq<Action>, t: Id, listing: seq<CameraLink>)
    requires var s := Exec(actions); t in s.running && s.running[t].stage.Cascading? && s.running[t].stage.pending == []
    requires WellFormed(Exec(actions).running[t].request)
    ensures var s, n := Exec(actions), Exec(actions + [Step(t, listing)]);
      IsOver(s, n, t) && PageIsUnregistered(s.db, n.db, s.running[t].stage.page.id)
  {
    ReachableInv(actions);
    ExecOne(actions, Step(t, listing));
    hide Exec;
    ReadyPage(Exec(actions), t);
    var stage := Exec(actions).running[t].stage;
    FinishIsOver(Exec(actions), t, Cascaded(Exec(actions).db, stage.page, stage.doomed));
    hide Inv, Cascaded, PageIsUnregistered, IsOver;
  }

  lemma {:induction false} FinishIsOver(s: System, t: Id, db: Database)
    ensures IsOver(s, Finish(s, t, db), t)
  {
  }

  lemma {:induction false} ReadyPage(s: System, t: Id)
    requires Inv(s) && t in s.running && s.running[t].stage.Cascading? && s.running[t].stage.pending == []
    ensures var stage := s.running[t].stage;
      PageIsUnregistered(s.db, Cascaded(s.db, stage.page, stage.doomed), stage.page.id)
  {
    var stage := s.running[t].stage;
    assert Knows(s.db, s.running[t]);
    hide LocksAreRight, Cascaded, LinksAreRight, PageIsUnregistered;
    CascadeUnregisters(s.db, stage.page, stage.doomed);
  }

  lemma {:induction false} ExecOne(actions: seq<Action>, a: Action)
    ensures var s := Exec(actions); Exec(actions + [a]) == if Enabled(s, a) then Next(s, a) else s
  {
    assert (actions + [a])[..|actions|] == actions;
  }

  lemma {:induction false} CascadeUnregisters(db: Database, page: Device, doomed: map<Id, Device>)
    requires LinksAreRight(db) && ReadyToCascade(db, page, doomed)
    requires forall c :: c in doomed ==> c in db.links && page.HasPoint(db.links[c])
    ensures PageIsUnregistered(db, Cascaded(db, page, doomed), page.id)
  {
    DoomedAreLinked(db, page, doomed);
    CascadedRows(db, page, doomed);
    assert RowIsRight(db, page.id);
    hide Cascaded, LinkedTo, LinksAreRight, ReadyToCascade;
    RowsOfCascade(db, Cascaded(db, page, doomed), page.id, doomed.Keys);
  }

  lemma {:induction false} DoomedAreLinked(db: Database, page: Device, doomed: map<Id, Device>)
    requires LinksAreRight(db) && ReadyToCascade(db, page, doomed)
    requires forall c :: c in doomed ==> c in db.links && page.HasPoint(db.links[c])
    ensures forall c :: c in doomed <==> LinkedTo(db, c, page.id)
    ensures forall c :: c in doomed ==>
              c in db.devices && c != page.id && AfterUnregister(db.devices[c]) == db.devices[c].(unregistered := true)
  {
    forall c | c in doomed
      ensures c in db.devices && c != page.id && AfterUnregister(db.devices[c]) == db.devices[c].(unregistered := true)
    {
      assert RowIsRight(db, c);
    }
  }

  lemma {:induction false} RowsOfCascade(db: Database, after: Database, page: Id, doomed: set<Id>)
    requires page in db.devices && after.devices.Keys == db.devices.Keys && after.links == db.links - doomed
    requires IsGonePage(db.devices[page], after.devices[page])
    requires forall d :: d in db.devices && d != page ==>
               after.devices[d] == if d in doomed then db.devices[d].(unregistered := true) else db.devices[d]
    requires forall c :: c in doomed <==> LinkedTo(db, c, page)
    requires forall c :: c in doomed ==> c in db.devices && c != page
    ensures PageIsUnregistered(db, after, page)
  {
    hide LinkedTo, IsGonePage;
  }

  /** Unregistering a camera drops its link. */
  lemma {:induction false} CameraUnregistered(actions: seq<Action>, t: Id, listing: seq<CameraLink>)
    requires var s := Exec(actions); t in s.running && s.running[t].stage.Loaded? && s.running[t].request.Unregister?
    requires Exec(actions).running[t].stage.device.kind.CameraDevice?
    ensures var s, n := Exec(actions), Exec(actions + [Step(t, listing)]);
            var camera := s.running[t].stage.device.id;
      && IsOver(s, n, t) && camera in s.db.devices && !s.db.devices[camera].unregistered
      && n.db == Database(s.db.devices[camera := s.db.devices[camera].(unregistered := true)], s.db.links - {camera})
  {
    var s := Exec(actions);
    ReachableInv(actions);
    ExecOne(actions, Step(t, listing));
    hide Exec;
    assert Knows(s.db, s.running[t]);
    assert RowIsRight(s.db, s.running[t].stage.device.id);
  }

  /** The point of the page has the new name and flag, and nothing else changes. */
  ghost predicate PointIsConfigured(before: Database, after: Database, page: Id, pointId: Id, name: string,
      enabled: bool)
  {
    && page in before.devices
    && exists i ::
      && 0 <= i < |before.devices[page].points| && before.devices[page].points[i].id == pointId
      && (forall j :: 0 <= j < i ==> before.devices[page].points[j].id != pointId)
      && after == before.(devices := before.devices[page := before.devices[page].(
           points := before.devices[page].points[i :=
             before.devices[page].points[i].(name := name, enabled := enabled)])])
  }

  lemma {:induction false} PointConfigured(actions: seq<Action>, t: Id, listing: seq<CameraLink>)
    requires var s := Exec(actions); t in s.running && s.running[t].stage.Loaded? && s.running[t].request.Configure?
    ensures var s, n, r := Exec(actions), Exec(actions + [Step(t, listing)]), Exec(actions).running[t].request;
      && IsOver(s, n, t)
      && PointIsConfigured(s.db, n.db, s.running[t].stage.device.id, r.pointId, r.name, r.enabled)
  {
    var s := Exec(actions);
    ReachableInv(actions);
    ExecOne(actions, Step(t, listing));
    hide Exec;
    assert Knows(s.db, s.running[t]);
    ConfiguresPoint(s.db, s.running[t].stage.device, s.running[t].request);
    hide Configured, Saved;
  }

  lemma {:induction false} ConfiguresPoint(db: Database, page: Device, r: Request)
    requires LinksAreRight(db) && r.Configure? && page.id in db.devices && db.devices[page.id] == page
    requires page.HasPoint(r.pointId)
    ensures PointIsConfigured(db, Saved(db, Configured(page, r)), page.id, r.pointId, r.name, r.enabled)
  {
    assert RowIsRight(db, page.id);
    var i := IndexOf(page.points, r.pointId);
    var k :| 0 <= k < |page.points| && page.points[k].id == r.pointId;
    assert i < |page.points|;
    assert Configured(page, r).links == [];
    assert !page.kind.CameraDevice?;
  }

  /** The row of the camera with its link, unless the ID is taken. */
  function WithInserted(db: Database, camera: Device): Database
    requires |camera.links| == 1
  {
    if camera.id in db.devices then db
    else Database(db.devices[camera.id := camera.(links := [])], db.links[camera.id := camera.links[0].pointId])
  }

  /** A registration that comes to insert its camera inserts it with its link, unless the ID drawn for it is
      taken. */
  lemma {:induction false} CameraRegistered(actions: seq<Action>, t: Id, listing: seq<CameraLink>)
    requires var s := Exec(actions); t in s.running && s.running[t].stage.Free? && WellFormed(s.running[t].request)
    ensures Exec(actions).running[t].request.RegisterCamera?
    ensures var s, n, d := Exec(actions), Exec(actions + [Step(t, listing)]), Exec(actions).running[t].request.device;
      && IsOver(s, n, t)
      && n.db == WithInserted(s.db, d)
  {
    LinkInsertionNeverViolates(actions, t);
    ExecOne(actions, Step(t, listing));
    hide Exec, Violates;
  }

  /** Creating a page writes the page. */
  lemma {:induction false} PageRegistered(actions: seq<Action>, page: Device)
    requires Enabled(Exec(actions), RegisterPage(page))
    ensures var s := Exec(actions);
      Exec(actions + [RegisterPage(page)]) == s.(db := s.db.(devices := s.db.devices[page.id := page]))
  {
    ExecOne(actions, RegisterPage(page));
    hide Exec, Fits;
    assert page.(links := []) == page;
  }

  /** A heartbeat stamps the page and the points it names, and nothing else. */
  ghost predicate IsBeaten(d: Device, e: Device, at: Time, activeAt: map<Id, Time>) {
    && e == d.(lastHeartbeatAt := Some(at), points := e.points) && |e.points| == |d.points|
    && forall i :: 0 <= i < |d.points| ==>
         e.points[i] == if d.points[i].id in activeAt then d.points[i].(lastActiveAt := Some(activeAt[d.points[i].id]))
                        else d.points[i]
  }

  lemma {:induction false} PageBeaten(actions: seq<Action>, page: Id, at: Time, activeAt: map<Id, Time>)
    requires Enabled(Exec(actions), Beat(page, at, activeAt))
    ensures var s, n := Exec(actions), Exec(actions + [Beat(page, at, activeAt)]);
      && page in n.db.devices && IsBeaten(s.db.devices[page], n.db.devices[page], at, activeAt)
      && n == s.(db := s.db.(devices := s.db.devices[page := n.db.devices[page]]))
  {
    ExecOne(actions, Beat(page, at, activeAt));
  }

  /** The step that commits what the transaction is for. */
  predicate Commits(tx: Transaction) {
    match tx.stage
    case Loaded(device) => tx.request.Configure? || (tx.request.Unregister? && device.kind.CameraDevice?)
    case Free(_) => true
    case Cascading(_, pending, _, _) => |pending| == 0
    case _ => false
  }

  /** Nothing else is written, and a transaction whose next row is locked by another waits. */
  lemma {:induction false} OnlyCommitsWrite(actions: seq<Action>, t: Id, listing: seq<CameraLink>)
    requires t in Exec(actions).running && WellFormed(Exec(actions).running[t].request)
    ensures var s, n := Exec(actions), Exec(actions + [Step(t, listing)]);
      && (!Commits(s.running[t]) ==> n.db == s.db)
      && (forall u :: Waits(s, t, u) ==> n == s)
  {
    ExecOne(actions, Step(t, listing));
    hide Exec, IsListing, CascadeOrder;
  }

  lemma {:induction false} BeginningWritesNothing(actions: seq<Action>, t: Id, r: Request)
    ensures Exec(actions + [Begin(t, r)]).db == Exec(actions).db == Exec(actions + [Abort(t)]).db
  {
    ExecOne(actions, Begin(t, r));
    ExecOne(actions, Abort(t));
  }

  /** Beginning a transaction and taking k steps of it, with nothing in between. */
  function Alone(t: Id, r: Request, listing: seq<CameraLink>, k: nat): seq<Action> {
    if k == 0 then [Begin(t, r)] else Alone(t, r, listing, k - 1) + [Step(t, listing)]
  }

  ghost function After(actions: seq<Action>, t: Id, r: Request, listing: seq<CameraLink>, k: nat): System {
    Exec(actions + Alone(t, r, listing, k))
  }

  /** The transaction has come to a stage, and holds all locks there are; nothing is committed. */
  ghost predicate IsAt(s: System, n: System, t: Id, r: Request, stage: Stage) {
    n.db == s.db && n.running == s.running[t := Transaction(r, stage)] && forall d :: d in n.locks ==> n.locks[d] == t
  }

  /** The transaction has left nothing but the database behind. */
  ghost predicate HasLeft(s: System, n: System, db: Database) {
    n == System(db, s.running, map[])
  }

  lemma {:induction false} FirstStep(actions: seq<Action>, t: Id, r: Request, listing: seq<CameraLink>)
    requires t !in Exec(actions).running && Exec(actions).locks == map[] && WellFormed(r)
    ensures IsAt(Exec(actions), After(actions, t, r, listing, 0), t, r, Starting)
  {
    ExecOne(actions, Begin(t, r));
  }

  lemma {:induction false} NextStep(actions: seq<Action>, t: Id, r: Request, listing: seq<CameraLink>, k: nat)
    requires k > 0
    ensures var n := After(actions, t, r, listing, k - 1);
            After(actions, t, r, listing, k) == if Enabled(n, Step(t, listing)) then Next(n, Step(t, listing)) else n
    ensures Inv(After(actions, t, r, listing, k - 1))
  {
    var before := actions + Alone(t, r, listing, k - 1);
    assert actions + Alone(t, r, listing, k) == before + [Step(t, listing)];
    ExecOne(before, Step(t, listing));
    ReachableInv(before);
  }

  /** A step from where the transaction is. */
  lemma {:induction false} StepsOn(actions: seq<Action>, t: Id, r: Request, listing: seq<CameraLink>, k: nat,
      stage: Stage)
    requires k > 0 && WellFormed(r) && IsAt(Exec(actions), After(actions, t, r, listing, k - 1), t, r, stage)
    ensures var n := After(actions, t, r, listing, k - 1);
      && Inv(n) && t in n.running
      && After(actions, t, r, listing, k) ==
           match stage
           case Starting => StepStarting(n, t)
           case Locked(d) => StepLocked(n, t, d)
           case Loaded(d) => StepLoaded(n, t, d, listing)
           case Free(_) => StepFree(n, t)
           case Cascading(_, _, _, _) => StepCascading(n, t, stage)
  {
    NextStep(actions, t, r, listing, k);
    hide Exec, After, Inv, StepStarting, StepLocked, StepLoaded, StepFree, StepCascading;
  }

  lemma {:induction false} Leaves(s: System, n: System, t: Id, r: Request, stage: Stage, db: Database)
    requires IsAt(s, n, t, r, stage) && t !in s.running
    ensures HasLeft(s, Finish(n, t, db), db)
  {
    assert (s.running[t := Transaction(r, stage)]) - {t} == s.running;
  }

  /** Moving on, possibly with one more lock. */
  lemma {:induction false} MovesOn(s: System, n: System, t: Id, r: Request, stage: Stage, next: Stage, d: Id)
    requires IsAt(s, n, t, r, stage)
    ensures IsAt(s, Advance(n, t, next), t, r, next) && IsAt(s, Advance(Lock(n, t, d), t, next), t, r, next)
  {
  }

  /** Once it has left, further steps do nothing. */
  lemma {:induction false} StaysLeft(actions: seq<Action>, t: Id, r: Request, listing: seq<CameraLink>, k: nat,
      l: nat, db: Database)
    requires k <= l && t !in Exec(actions).running
    requires HasLeft(Exec(actions), After(actions, t, r, listing, k), db)
    ensures HasLeft(Exec(actions), After(actions, t, r, listing, l), db)
  {
    if k < l {
      StaysLeft(actions, t, r, listing, k, l - 1, db);
      NextStep(actions, t, r, listing, l);
      hide Exec, Inv;
    }
  }

  lemma {:induction false} NothingLockedYet(s: System, n: System, t: Id, r: Request)
    requires Inv(n) && IsAt(s, n, t, r, Starting)
    ensures n.locks == map[]
  {
  }

  /** From the start, a transaction that looks up a point locks the row that owns it. */
  lemma {:induction false} LocksOwner(s: System, n: System, t: Id, r: Request)
    requires Inv(n) && IsAt(s, n, t, r, Starting) && WellFormed(r) && !r.Unregister? && t !in s.running
    ensures forall h :: Owns(s.db, h, PointOf(r)) ==> IsAt(s, StepStarting(n, t), t, r, Locked(h))
    ensures (forall h :: !Owns(s.db, h, PointOf(r))) ==> HasLeft(s, StepStarting(n, t), s.db)
  {
    NothingLockedYet(s, n, t, r);
    assert UniquePoints(n.db);
    hide Inv, Owns;
    forall h
      ensures IsFirst(n.db, r, h) <==> Owns(s.db, h, PointOf(r))
    {
    }
    Leaves(s, n, t, r, Starting, s.db);
  }

  /** The camera can be registered: its ID is free, and its point is a page's of its event that is registered,
      and not linked. */
  ghost predicate CanRegister(db: Database, d: Device)
    requires |d.links| == 1
  {
    && d.id !in db.devices && (forall c :: c in db.links ==> db.links[c] != d.links[0].pointId)
    && exists h :: IsOpenTo(db, h, d.links[0].pointId, d.eventId)
  }

  /** The device is registered for the event, and has the point. */
  ghost predicate IsOpenTo(db: Database, h: Id, pointId: Id, eventId: Id) {
    && h in db.devices && db.devices[h].HasPoint(pointId)
    && db.devices[h].eventId == eventId && !db.devices[h].unregistered
  }

  lemma {:induction false} OneOwner(db: Database, h: Id, g: Id, pointId: Id, eventId: Id)
    requires LinksAreRight(db) && Owns(db, h, pointId)
    ensures IsOpenTo(db, g, pointId, eventId) ==> g == h
    ensures db.devices[h].kind.ObservationPage?
  {
    assert RowIsRight(db, h);
    assert IsOpenTo(db, g, pointId, eventId) ==> Owns(db, g, pointId);
  }

  lemma {:induction false} LoadsForCamera(s: System, n: System, t: Id, d: Device, h: Id)
    requires Inv(n) && IsAt(s, n, t, RegisterCamera(d), Locked(h)) && WellFormed(RegisterCamera(d)) && t !in s.running
    requires Owns(s.db, h, d.links[0].pointId)
    ensures var n' := StepLocked(n, t, h);
      if IsOpenTo(s.db, h, d.links[0].pointId, d.eventId)
      then IsAt(s, n', t, RegisterCamera(d), Loaded(s.db.devices[h])) else HasLeft(s, n', s.db)
  {
    OneOwner(s.db, h, h, d.links[0].pointId, d.eventId);
    Leaves(s, n, t, RegisterCamera(d), Locked(h), s.db);
    hide Inv, LinksAreRight, Device.HasPoint;
  }

  lemma {:induction false} ChecksLink(s: System, n: System, t: Id, d: Device, page: Device)
    requires IsAt(s, n, t, RegisterCamera(d), Loaded(page)) && WellFormed(RegisterCamera(d)) && t !in s.running
    ensures var n' := StepLoaded(n, t, page, []);
      if IsLinked(s.db, d.links[0].pointId) then HasLeft(s, n', s.db)
      else IsAt(s, n', t, RegisterCamera(d), Free(page))
  {
    Leaves(s, n, t, RegisterCamera(d), Loaded(page), s.db);
  }

  lemma {:induction false} Inserts(s: System, n: System, t: Id, d: Device, page: Device)
    requires Inv(n) && IsAt(s, n, t, RegisterCamera(d), Free(page)) && WellFormed(RegisterCamera(d)) && t !in s.running
    ensures HasLeft(s, StepFree(n, t), WithInserted(s.db, d))
  {
    assert Knows(n.db, n.running[t]);
    assert d.id in s.db.links <==> Registered(s.db, d.id);
    Leaves(s, n, t, RegisterCamera(d), Free(page), s.db);
    Leaves(s, n, t, RegisterCamera(d), Free(page), Created(s.db, d));
    hide LinksAreRight, LocksAreRight;
  }

  /** What registering a camera is to leave. */
  ghost function WithCamera(db: Database, d: Device): Database
    requires |d.links| == 1
  {
    if CanRegister(db, d) then WithInserted(db, d) else db
  }

  lemma {:induction false} WithCameraIs(db: Database, d: Device, h: Id)
    requires |d.links| == 1 && IsOpenTo(db, h, d.links[0].pointId, d.eventId)
    ensures WithCamera(db, d) ==
            if IsLinked(db, d.links[0].pointId) then db else WithInserted(db, d)
  {
  }

  lemma {:induction false} CameraFromFree(actions: seq<Action>, t: Id, d: Device, page: Device)
    requires t !in Exec(actions).running && WellFormed(RegisterCamera(d))
    requires IsAt(Exec(actions), After(actions, t, RegisterCamera(d), [], 3), t, RegisterCamera(d), Free(page))
    ensures HasLeft(Exec(actions), After(actions, t, RegisterCamera(d), [], 4), WithInserted(Exec(actions).db, d))
  {
    StepsOn(actions, t, RegisterCamera(d), [], 4, Free(page));
    hide *;
    Inserts(Exec(actions), After(actions, t, RegisterCamera(d), [], 3), t, d, page);
  }

  lemma {:induction false} CameraFromLoaded(actions: seq<Action>, t: Id, d: Device, h: Id)
    requires t !in Exec(actions).running && WellFormed(RegisterCamera(d))
    requires IsOpenTo(Exec(actions).db, h, d.links[0].pointId, d.eventId)
    requires IsAt(Exec(actions), After(actions, t, RegisterCamera(d), [], 2), t, RegisterCamera(d),
                  Loaded(Exec(actions).db.devices[h]))
    ensures HasLeft(Exec(actions), After(actions, t, RegisterCamera(d), [], 4), WithCamera(Exec(actions).db, d))
  {
    var s, r, page := Exec(actions), RegisterCamera(d), Exec(actions).db.devices[h];
    hide *;
    var n2, n3 := After(actions, t, r, [], 2), After(actions, t, r, [], 3);
    WithCameraIs(s.db, d, h);
    assert n3 == StepLoaded(n2, t, page, []) by {
      StepsOn(actions, t, r, [], 3, Loaded(page));
    }
    ChecksLink(s, n2, t, d, page);
    if IsLinked(s.db, d.links[0].pointId) {
      StaysLeft(actions, t, r, [], 3, 4, s.db);
    } else {
      CameraFromFree(actions, t, d, page);
    }
  }

  lemma {:induction false} CameraFromLocked(actions: seq<Action>, t: Id, d: Device, h: Id)
    requires t !in Exec(actions).running && WellFormed(RegisterCamera(d))
    requires Owns(Exec(actions).db, h, d.links[0].pointId)
    requires IsAt(Exec(actions), After(actions, t, RegisterCamera(d), [], 1), t, RegisterCamera(d), Locked(h))
    ensures HasLeft(Exec(actions), After(actions, t, RegisterCamera(d), [], 4), WithCamera(Exec(actions).db, d))
  {
    var s, r, p := Exec(actions), RegisterCamera(d), d.links[0].pointId;
    ReachableInv(actions);
    StepsOn(actions, t, r, [], 2, Locked(h));
    LoadsForCamera(s, After(actions, t, r, [], 1), t, d, h);
    forall g
      ensures IsOpenTo(s.db, g, p, d.eventId) ==> g == h
    {
      OneOwner(s.db, h, g, p, d.eventId);
    }
    hide Exec, Inv, After, HasLeft, IsOpenTo, StepLocked, IsAt;
    if IsOpenTo(s.db, h, p, d.eventId) {
      CameraFromLoaded(actions, t, d, h);
    } else {
      StaysLeft(actions, t, r, [], 2, 4, s.db);
    }
  }

  /** Alone, four steps register a camera exactly when it can be registered, and otherwise change nothing. */
  lemma {:induction false} CameraRegistersAlone(actions: seq<Action>, t: Id, d: Device)
    requires t !in Exec(actions).running && Exec(actions).locks == map[] && WellFormed(RegisterCamera(d))
    ensures HasLeft(Exec(actions), After(actions, t, RegisterCamera(d), [], 4), WithCamera(Exec(actions).db, d))
  {
    var s, r := Exec(actions), RegisterCamera(d);
    FirstStep(actions, t, r, []);
    StepsOn(actions, t, r, [], 1, Starting);
    LocksOwner(s, After(actions, t, r, [], 0), t, r);
    hide Exec, Inv, After, HasLeft, StepStarting, IsAt;
    if h :| Owns(s.db, h, PointOf(r)) {
      CameraFromLocked(actions, t, d, h);
    } else {
      assert forall h :: IsOpenTo(s.db, h, PointOf(r), d.eventId) ==> Owns(s.db, h, PointOf(r));
      StaysLeft(actions, t, r, [], 1, 4, s.db);
    }
  }

  lemma {:induction false} LoadsForUpdate(s: System, n: System, t: Id, r: Request, h: Id)
    requires IsAt(s, n, t, r, Locked(h)) && r.Configure? && t !in s.running && Owns(s.db, h, r.pointId)
    ensures var n' := StepLocked(n, t, h);
      if IsOpenTo(s.db, h, r.pointId, r.eventId) && r.name != ""
      then IsAt(s, n', t, r, Loaded(s.db.devices[h])) else HasLeft(s, n', s.db)
  {
    Leaves(s, n, t, r, Locked(h), s.db);
    hide Device.HasPoint;
  }

  lemma {:induction false} Updates(s: System, n: System, t: Id, r: Request, h: Id)
    requires r.Configure? && LinksAreRight(s.db) && IsOpenTo(s.db, h, r.pointId, r.eventId)
    requires t !in s.running && IsAt(s, n, t, r, Loaded(s.db.devices[h]))
    ensures var n' := StepLoaded(n, t, s.db.devices[h], []);
      HasLeft(s, n', n'.db) && PointIsConfigured(s.db, n'.db, h, r.pointId, r.name, r.enabled)
  {
    assert RowIsRight(s.db, h);
    ConfiguresPoint(s.db, s.db.devices[h], r);
    Leaves(s, n, t, r, Loaded(s.db.devices[h]), Saved(s.db, Configured(s.db.devices[h], r)));
    hide Configured, Saved, LinksAreRight;
  }

  /** The configuration did what was asked when a registered page of the event has the point and the name is
      not empty, and nothing otherwise. */
  ghost predicate IsConfigured(before: Database, after: Database, pointId: Id, eventId: Id, name: string,
      enabled: bool)
  {
    if name != "" && exists h :: IsOpenTo(before, h, pointId, eventId)
    then exists h :: IsOpenTo(before, h, pointId, eventId)
                     && PointIsConfigured(before, after, h, pointId, name, enabled)
    else after == before
  }

  lemma {:induction false} ConfiguredIs(before: Database, after: Database, h: Id, r: Request)
    requires r.Configure? && forall g :: IsOpenTo(before, g, r.pointId, r.eventId) ==> g == h
    requires if IsOpenTo(before, h, r.pointId, r.eventId) && r.name != ""
             then PointIsConfigured(before, after, h, r.pointId, r.name, r.enabled) else after == before
    ensures IsConfigured(before, after, r.pointId, r.eventId, r.name, r.enabled)
  {
    hide PointIsConfigured, IsOpenTo;
  }

  lemma {:induction false} UpdateFromLocked(actions: seq<Action>, t: Id, r: Request, h: Id)
    requires t !in Exec(actions).running && r.Configure? && Owns(Exec(actions).db, h, r.pointId)
    requires IsAt(Exec(actions), After(actions, t, r, [], 1), t, r, Locked(h))
    ensures var s, n := Exec(actions), After(actions, t, r, [], 3);
      HasLeft(s, n, n.db) && IsConfigured(s.db, n.db, r.pointId, r.eventId, r.name, r.enabled)
  {
    var s := Exec(actions);
    ReachableInv(actions);
    StepsOn(actions, t, r, [], 2, Locked(h));
    LoadsForUpdate(s, After(actions, t, r, [], 1), t, r, h);
    forall g
      ensures IsOpenTo(s.db, g, r.pointId, r.eventId) ==> g == h
    {
      OneOwner(s.db, h, g, r.pointId, r.eventId);
    }
    hide *;
    if IsOpenTo(s.db, h, r.pointId, r.eventId) && r.name != "" {
      UpdateFromLoaded(actions, t, r, h);
    } else {
      StaysLeft(actions, t, r, [], 2, 3, s.db);
    }
    ConfiguredIs(s.db, After(actions, t, r, [], 3).db, h, r);
  }

  lemma {:induction false} UpdateFromLoaded(actions: seq<Action>, t: Id, r: Request, h: Id)
    requires r.Configure? && t !in Exec(actions).running && IsOpenTo(Exec(actions).db, h, r.pointId, r.eventId)
    requires IsAt(Exec(actions), After(actions, t, r, [], 2), t, r, Loaded(Exec(actions).db.devices[h]))
    ensures var s, n := Exec(actions), After(actions, t, r, [], 3);
      HasLeft(s, n, n.db) && PointIsConfigured(s.db, n.db, h, r.pointId, r.name, r.enabled)
  {
    var s := Exec(actions);
    var page := s.db.devices[h];
    ReachableInv(actions);
    assert LinksAreRight(s.db);
    hide *;
    var n2, n3 := After(actions, t, r, [], 2), After(actions, t, r, [], 3);
    assert n3 == StepLoaded(n2, t, page, []) by {
      StepsOn(actions, t, r, [], 3, Loaded(page));
    }
    Updates(s, n2, t, r, h);
  }

  /** Alone, three steps configure a point exactly when it can be configured. */
  lemma {:induction false} PointConfiguredAlone(actions: seq<Action>, t: Id, r: Request)
    requires t !in Exec(actions).running && Exec(actions).locks == map[] && r.Configure?
    ensures var s, n := Exec(actions), After(actions, t, r, [], 3);
      HasLeft(s, n, n.db) && IsConfigured(s.db, n.db, r.pointId, r.eventId, r.name, r.enabled)
  {
    var s := Exec(actions);
    FirstStep(actions, t, r, []);
    StepsOn(actions, t, r, [], 1, Starting);
    LocksOwner(s, After(actions, t, r, [], 0), t, r);
    hide Exec, Inv, After, StepStarting, IsAt;
    if h :| Owns(s.db, h, PointOf(r)) {
      UpdateFromLocked(actions, t, r, h);
    } else {
      assert forall h :: IsOpenTo(s.db, h, r.pointId, r.eventId) ==> Owns(s.db, h, PointOf(r));
      StaysLeft(actions, t, r, [], 1, 3, s.db);
    }
  }

  /** The device is registered for the event. */
  predicate CanUnregister(db: Database, id: Id, eventId: Id) {
    id in db.devices && db.devices[id].eventId == eventId && !db.devices[id].unregistered
  }

  /** From the start, an unregistration locks and reads its device. */
  lemma {:induction false} LocksDevice(s: System, n: System, t: Id, r: Request)
    requires Inv(n) && IsAt(s, n, t, r, Starting) && r.Unregister? && t !in s.running
    ensures if CanUnregister(s.db, r.id, r.eventId)
            then IsAt(s, StepStarting(n, t), t, r, Loaded(s.db.devices[r.id]))
            else HasLeft(s, StepStarting(n, t), s.db)
  {
    NothingLockedYet(s, n, t, r);
    hide Inv;
    forall d
      ensures IsFirst(n.db, r, d) <==> d == r.id && d in n.db.devices
    {
    }
    Leaves(s, n, t, r, Starting, s.db);
  }

  /** Alone, two steps unregister a camera. */
  lemma {:induction false} CameraUnregisteredAlone(actions: seq<Action>, t: Id, id: Id, eventId: Id)
    requires t !in Exec(actions).running && Exec(actions).locks == map[]
    requires CanUnregister(Exec(actions).db, id, eventId) && Exec(actions).db.devices[id].kind.CameraDevice?
    ensures var s := Exec(actions);
      HasLeft(s, After(actions, t, Unregister(id, eventId), [], 2),
              Database(s.db.devices[id := s.db.devices[id].(unregistered := true)], s.db.links - {id}))
  {
    var s, r, camera := Exec(actions), Unregister(id, eventId), Exec(actions).db.devices[id];
    LoadsAlone(actions, t, r, []);
    ReachableInv(actions);
    assert RowIsRight(s.db, id);
    hide Exec, Inv, After, HasLeft, IsAt, LinksAreRight;
    assert After(actions, t, r, [], 2) == StepLoaded(After(actions, t, r, [], 1), t, camera, []) by {
      StepsOn(actions, t, r, [], 2, Loaded(camera));
    }
    DropsLink(s, After(actions, t, r, [], 1), t, r, camera);
  }

  lemma {:induction false} DropsLink(s: System, n: System, t: Id, r: Request, camera: Device)
    requires IsAt(s, n, t, r, Loaded(camera)) && r.Unregister? && camera.kind.CameraDevice? && camera.links == []
    requires t !in s.running
    ensures HasLeft(s, StepLoaded(n, t, camera, []),
                    Database(s.db.devices[camera.id := camera.(unregistered := true)], s.db.links - {camera.id}))
  {
    Leaves(s, n, t, r, Loaded(camera), Saved(s.db, AfterUnregister(camera)));
  }

  /** Alone, an unregistration comes to read the row of a registered device of the event. */
  lemma {:induction false} LoadsAlone(actions: seq<Action>, t: Id, r: Request, listing: seq<CameraLink>)
    requires t !in Exec(actions).running && Exec(actions).locks == map[] && r.Unregister?
    requires CanUnregister(Exec(actions).db, r.id, r.eventId)
    ensures IsAt(Exec(actions), After(actions, t, r, listing, 1), t, r, Loaded(Exec(actions).db.devices[r.id]))
  {
    FirstStep(actions, t, r, listing);
    StepsOn(actions, t, r, listing, 1, Starting);
    LocksDevice(Exec(actions), After(actions, t, r, listing, 0), t, r);
    hide Exec, Inv, After, StepStarting, IsAt;
  }

  /** Alone, an unregistration of a device that is unknown, of another event or unregistered changes nothing. */
  lemma {:induction false} NothingUnregistered(actions: seq<Action>, t: Id, id: Id, eventId: Id)
    requires t !in Exec(actions).running && Exec(actions).locks == map[]
    requires !CanUnregister(Exec(actions).db, id, eventId)
    ensures HasLeft(Exec(actions), After(actions, t, Unregister(id, eventId), [], 1), Exec(actions).db)
  {
    var s, r := Exec(actions), Unregister(id, eventId);
    FirstStep(actions, t, r, []);
    StepsOn(actions, t, r, [], 1, Starting);
    LocksDevice(s, After(actions, t, r, [], 0), t, r);
  }

  lemma {:induction false} NextIsFree(n: System, t: Id, stage: Stage)
    requires Inv(n) && t in n.running && n.running[t].stage == stage && stage.Cascading? && |stage.pending| > 0
    requires forall d :: d in n.locks ==> n.locks[d] == t
    ensures stage.pending[0] in n.db.devices && stage.pending[0] !in n.locks
  {
    var c := stage.pending[0];
    assert Knows(n.db, n.running[t]);
    NotHeldYet(n.db, n.running[t], stage);
    hide LinksAreRight, Knows;
  }

  lemma {:induction false} NotHeldYet(db: Database, tx: Transaction, stage: Stage)
    requires Knows(db, tx) && tx.stage == stage && stage.Cascading? && |stage.pending| > 0
    ensures stage.pending[0] in db.devices && stage.pending[0] !in Held(stage)
  {
    var c := stage.pending[0];
    assert c in stage.pending && IsCamera(db, c);
    BeforeIrreflexive(c);
  }

  /** Alone, each step of a cascade takes the next camera. */
  lemma {:induction false} TakesNextCamera(s: System, n: System, t: Id, r: Request, stage: Stage)
    requires Inv(n) && IsAt(s, n, t, r, stage) && stage.Cascading? && |stage.pending| > 0 && t !in s.running
    ensures stage.pending[0] in s.db.devices
    ensures IsAt(s, StepCascading(n, t, stage), t, r, Visited(s.db, stage))
  {
    NextIsFree(n, t, stage);
    MovesOn(s, n, t, r, stage, Visited(s.db, stage), stage.pending[0]);
    assert n.db == s.db;
    hide Inv, IsAt, Advance, Lock;
  }

  lemma {:induction false} CascadesAlone(actions: seq<Action>, t: Id, r: Request, listing: seq<CameraLink>, k: nat,
      stage: Stage) returns (last: Stage)
    requires t !in Exec(actions).running && WellFormed(r) && stage.Cascading?
    requires IsAt(Exec(actions), After(actions, t, r, listing, k), t, r, stage)
    ensures last.Cascading? && last.page == stage.page && last.pending == []
    ensures IsAt(Exec(actions), After(actions, t, r, listing, k + |stage.pending|), t, r, last)
    decreases |stage.pending|
  {
    hide Exec, After, IsAt, Inv, StepCascading;
    last := stage;
    if |stage.pending| > 0 {
      StepsOn(actions, t, r, listing, k + 1, stage);
      TakesNextCamera(Exec(actions), After(actions, t, r, listing, k), t, r, stage);
      var next := Visited(Exec(actions).db, stage);
      assert |next.pending| == |stage.pending| - 1 && next.page == stage.page;
      last := CascadesAlone(actions, t, r, listing, k + 1, next);
    }
  }

  /** Alone, an unregistration of a page unregisters it with its cameras, one step for each and three more. */
  lemma {:induction false} PageUnregisteredAlone(actions: seq<Action>, t: Id, id: Id, eventId: Id,
      listing: seq<CameraLink>)
    requires t !in Exec(actions).running && Exec(actions).locks == map[]
    requires CanUnregister(Exec(actions).db, id, eventId) && Exec(actions).db.devices[id].kind.ObservationPage?
    requires IsListing(Exec(actions).db, Exec(actions).db.devices[id], listing)
    ensures var s, n := Exec(actions), After(actions, t, Unregister(id, eventId), listing, 3 + |CascadeOrder(listing)|);
      HasLeft(s, n, n.db) && PageIsUnregistered(s.db, n.db, id)
  {
    var s, r := Exec(actions), Unregister(id, eventId);
    var page, k := s.db.devices[id], 2 + |CascadeOrder(listing)|;
    var first := Cascading(page, CascadeOrder(listing), {}, map[]);
    CascadeBegins(actions, t, r, listing);
    hide *;
    var last := CascadesAlone(actions, t, r, listing, 2, first);
    StepsOn(actions, t, r, listing, k + 1, last);
    CascadeCommits(s, After(actions, t, r, listing, k), t, r, last);
  }

  lemma {:induction false} CascadeBegins(actions: seq<Action>, t: Id, r: Request, listing: seq<CameraLink>)
    requires t !in Exec(actions).running && Exec(actions).locks == map[] && r.Unregister?
    requires CanUnregister(Exec(actions).db, r.id, r.eventId) && Exec(actions).db.devices[r.id].kind.ObservationPage?
    requires IsListing(Exec(actions).db, Exec(actions).db.devices[r.id], listing)
    ensures Exec(actions).db.devices[r.id].id == r.id
    ensures IsAt(Exec(actions), After(actions, t, r, listing, 2), t, r,
                 Cascading(Exec(actions).db.devices[r.id], CascadeOrder(listing), {}, map[]))
  {
    var s, page := Exec(actions), Exec(actions).db.devices[r.id];
    LoadsAlone(actions, t, r, listing);
    ReachableInv(actions);
    assert RowIsRight(s.db, r.id);
    hide Exec, Inv, After, HasLeft, IsListing, CascadeOrder, RowIsRight, LinksAreRight;
    assert After(actions, t, r, listing, 2) == StepLoaded(After(actions, t, r, listing, 1), t, page, listing) by {
      StepsOn(actions, t, r, listing, 2, Loaded(page));
    }
    MovesOn(s, After(actions, t, r, listing, 1), t, r, Loaded(page),
            Cascading(page, CascadeOrder(listing), {}, map[]), r.id);
    hide Advance;
  }

  lemma {:induction false} CascadeCommits(s: System, n: System, t: Id, r: Request, stage: Stage)
    requires Inv(n) && IsAt(s, n, t, r, stage) && stage.Cascading? && stage.pending == [] && t !in s.running
    ensures var n' := StepCascading(n, t, stage);
      HasLeft(s, n', n'.db) && PageIsUnregistered(s.db, n'.db, stage.page.id)
  {
    ReadyPage(n, t);
    Leaves(s, n, t, r, stage, Cascaded(s.db, stage.page, stage.doomed));
    hide Cascaded, Inv, PageIsUnregistered;
  }
}
