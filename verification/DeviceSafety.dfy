/** What every state that interleaved device transactions can reach keeps. */
module DeviceSafety {
  import opened Basics
  import opened Sorting
  import opened Devices
  import opened EdgeDevices
  import opened DeviceTransactions

  ghost predicate UniquePoints(db: Database) {
    forall d, e, p :: Owns(db, d, p) && Owns(db, e, p) ==> d == e
  }

  /** d is a registered page of the event of the camera, and owns the point the camera links to. */
  ghost predicate IsHome(db: Database, c: Id, d: Id) {
    && c in db.links && c in db.devices
    && Owns(db, d, db.links[c])
    && db.devices[d].kind.ObservationPage? && !db.devices[d].unregistered
    && db.devices[d].eventId == db.devices[c].eventId
  }

  predicate AllDisabled(d: Device) {
    forall i :: 0 <= i < |d.points| ==> !d.points[i].enabled
  }

  predicate RowIsRight(db: Database, d: Id)
    requires d in db.devices
  {
    var device := db.devices[d];
    && device.id == d && device.links == []
    && (device.kind.CameraDevice? ==> device.points == [])
    && (device.unregistered ==> AllDisabled(device))
  }

  /** Exactly the registered cameras have a link, each its own, to a point of a registered page of
      their event; the points of unregistered pages are disabled. */
  ghost predicate LinksAreRight(db: Database) {
    && (forall d :: d in db.devices ==> RowIsRight(db, d))
    && UniquePoints(db)
    && (forall c :: c in db.links <==> Registered(db, c))
    && (forall c :: c in db.links ==> exists d :: IsHome(db, c, d))
    && (forall c, e :: c in db.links && e in db.links && db.links[c] == db.links[e] ==> c == e)
  }

  /** What a transaction knows of the rows it has locked. */
  ghost predicate Knows(db: Database, tx: Transaction) {
    WellFormed(tx.request) &&
    match tx.stage
    case Starting => true
    case Locked(d) => !tx.request.Unregister? && Owns(db, d, PointOf(tx.request))
    case Loaded(device) => KnowsRow(db, tx.request, device)
    case Free(device) =>
      tx.request.RegisterCamera? && KnowsRow(db, tx.request, device) && !IsLinked(db, PointOf(tx.request))
    case Cascading(page, pending, visited, doomed) =>
      && tx.request.Unregister? && KnowsRow(db, tx.request, page) && page.kind.ObservationPage?
      && KnowsCameras(db, pending, visited, doomed)
      && (forall c :: c in db.links && page.HasPoint(db.links[c]) ==> c in pending || c in doomed)
      && (forall c :: (c in pending || c in doomed) && c in db.links ==> page.HasPoint(db.links[c]))
  }

  ghost predicate KnowsRow(db: Database, r: Request, device: Device)
    requires WellFormed(r)
  {
    && device.id in db.devices && db.devices[device.id] == device && !device.unregistered
    && (!r.Unregister? ==> device.HasPoint(PointOf(r)))
    && (r.RegisterCamera? ==> device.kind.ObservationPage? && device.eventId == r.device.eventId)
  }

  ghost predicate KnowsCameras(db: Database, pending: seq<Id>, visited: set<Id>, doomed: map<Id, Device>) {
    && StrictlySorted(pending, Before)
    && (forall v, i :: v in visited && 0 <= i < |pending| ==> Before(v, pending[i]))
    && (forall c :: c in pending || c in visited ==> IsCamera(db, c))
    && (forall c :: c in doomed ==> c in visited && Registered(db, c) && db.devices[c] == doomed[c])
  }

  predicate IsCamera(db: Database, c: Id) {
    c in db.devices && db.devices[c].kind.CameraDevice?
  }

  /** Locks belong to the running transactions that took them. */
  ghost predicate LocksAreRight(s: System) {
    && (forall d :: d in s.locks ==> s.locks[d] in s.running && d in Held(s.running[s.locks[d]].stage))
    && (forall t, d :: t in s.running && d in Held(s.running[t].stage) ==> d in s.locks && s.locks[d] == t)
  }

  ghost predicate Inv(s: System) {
    && LinksAreRight(s.db)
    && LocksAreRight(s)
    && forall t :: t in s.running ==> Knows(s.db, s.running[t])
  }

  /** A commit by someone who holds `owned`: other rows stay, and new links are of new cameras to owned
      pages. */
  ghost predicate Respects(db: Database, after: Database, owned: set<Id>) {
    && (forall d :: d in db.devices ==> d in after.devices && SameShape(db.devices[d], after.devices[d]))
    && (forall d :: d in db.devices && d !in owned ==> after.devices[d] == db.devices[d])
    && (forall c :: c in after.links ==>
          (c in db.links && after.links[c] == db.links[c])
          || (c !in db.devices && LinksInto(db, owned, after.links[c])))
  }

  predicate LinksInto(db: Database, owned: set<Id>, p: Id) {
    exists d :: d in owned && Owns(db, d, p)
  }

  /** The same device, with the same points, and not registered again. */
  ghost predicate SameShape(d: Device, e: Device) {
    && d.id == e.id && d.kind == e.kind && d.eventId == e.eventId
    && |d.points| == |e.points| && (forall i :: 0 <= i < |d.points| ==> d.points[i].id == e.points[i].id)
    && (d.unregistered ==> e.unregistered)
  }

  lemma {:induction false} SamePoints(d: Device, e: Device, p: Id)
    requires SameShape(d, e)
    ensures d.HasPoint(p) <==> e.HasPoint(p)
  {
    if i :| 0 <= i < |d.points| && d.points[i].id == p {
      assert e.points[i].id == p;
    }
    if i :| 0 <= i < |e.points| && e.points[i].id == p {
      assert d.points[i].id == p;
    }
  }

  /** What a transaction knows survives the commits of those who hold none of its locks. */
  lemma {:induction false} StillKnows(db: Database, after: Database, owned: set<Id>, tx: Transaction)
    requires LinksAreRight(db) && Respects(db, after, owned)
    requires Knows(db, tx) && Held(tx.stage) !! owned
    ensures Knows(after, tx)
  {
    match tx.stage
    case Starting =>
    case Locked(d) => SamePoints(db.devices[d], after.devices[d], PointOf(tx.request));
    case Loaded(device) =>
    case Free(device) =>
      if c :| c in after.links && after.links[c] == PointOf(tx.request) {
        NotInto(db, after, owned, device, c);
      }
    case Cascading(page, pending, visited, doomed) =>
      forall c | c in after.links && page.HasPoint(after.links[c])
        ensures c in pending || c in doomed
      {
        NotInto(db, after, owned, page, c);
      }
      forall c | (c in pending || c in doomed) && c in after.links
        ensures page.HasPoint(after.links[c])
      {
        assert IsCamera(db, c);
      }
      forall c | c in doomed
        ensures Registered(after, c) && after.devices[c] == doomed[c]
      {
        assert c in Held(tx.stage);
      }
      forall c | c in pending || c in visited
        ensures IsCamera(after, c)
      {
        assert IsCamera(db, c);
      }
  }

  /** A link to a point of a row that is not owned was there before. */
  lemma {:induction false} NotInto(db: Database, after: Database, owned: set<Id>, device: Device, c: Id)
    requires LinksAreRight(db) && Respects(db, after, owned)
    requires device.id in db.devices && db.devices[device.id] == device && device.id !in owned
    requires c in after.links && device.HasPoint(after.links[c])
    ensures c in db.links && db.links[c] == after.links[c]
  {
    assert Owns(db, device.id, after.links[c]);
  }

  lemma {:induction false} HeldApart(s: System, t: Id, u: Id)
    requires LocksAreRight(s) && t in s.running && u in s.running && t != u
    ensures Held(s.running[t].stage) !! Held(s.running[u].stage)
  {
    assert forall d :: d in Held(s.running[t].stage) ==> s.locks[d] == t;
    assert forall d :: d in Held(s.running[u].stage) ==> s.locks[d] == u;
  }

  /** Ending a transaction with a commit that respects the locks of the others keeps everything. */
  lemma {:induction false} FinishKeepsInv(s: System, t: Id, after: Database)
    requires Inv(s) && t in s.running && LinksAreRight(after) && Respects(s.db, after, Held(s.running[t].stage))
    ensures Inv(Finish(s, t, after))
  {
    hide Knows, LinksAreRight, Respects;
    var n := Finish(s, t, after);
    forall u | u in n.running
      ensures Knows(after, n.running[u])
    {
      HeldApart(s, t, u);
      StillKnows(s.db, after, Held(s.running[t].stage), s.running[u]);
    }
  }

  lemma {:induction false} RespectsItself(db: Database, owned: set<Id>)
    ensures Respects(db, db, owned)
  {
  }

  lemma {:induction false} DropKeepsInv(s: System, t: Id)
    requires Inv(s) && t in s.running
    ensures Inv(Drop(s, t))
  {
    RespectsItself(s.db, Held(s.running[t].stage));
    FinishKeepsInv(s, t, s.db);
  }

  /** Moving on without a commit, possibly with one more lock that nobody held. */
  lemma {:induction false} AdvanceKeepsInv(s: System, t: Id, stage: Stage)
    requires Inv(s) && t in s.running && Held(stage) == Held(s.running[t].stage)
    requires Knows(s.db, s.running[t].(stage := stage))
    ensures Inv(Advance(s, t, stage))
  {
    hide Knows, LinksAreRight;
  }

  lemma {:induction false} LockKeepsInv(s: System, t: Id, d: Id, stage: Stage)
    requires Inv(s) && t in s.running && d !in s.locks && Held(stage) == Held(s.running[t].stage) + {d}
    requires Knows(s.db, s.running[t].(stage := stage))
    ensures Inv(Advance(Lock(s, t, d), t, stage))
  {
    hide Knows, LinksAreRight;
    var n := Advance(Lock(s, t, d), t, stage);
    forall u, e | u in n.running && e in Held(n.running[u].stage)
      ensures e in n.locks && n.locks[e] == u
    {
      if u != t {
        assert e in s.locks && s.locks[e] == u;
      }
    }
  }

  /** Creating a page whose points are new. */
  lemma {:induction false} CreatePage(db: Database, d: Device)
    requires LinksAreRight(db) && IsNew(d) && d.kind.ObservationPage? && Fits(db, d)
    ensures LinksAreRight(Created(db, d)) && Respects(db, Created(db, d), {})
  {
    var after := Created(db, d);
    KeepsOwners(db, after, d.id);
    CreatedUnique(db, d);
    forall c | c in after.links
      ensures exists h :: IsHome(after, c, h)
    {
      var h :| IsHome(db, c, h);
      assert IsHome(after, c, h);
    }
  }

  lemma {:induction false} NewPointsOwned(db: Database, d: Device, e: Id, f: Id, p: Id)
    requires LinksAreRight(db) && Fits(db, d)
    requires Owns(Created(db, d), e, p) && Owns(Created(db, d), f, p)
    ensures e == f
  {
    if e != d.id && f != d.id {
      assert Owns(db, e, p) && Owns(db, f, p);
    } else if e != f {
      var o := if e == d.id then f else e;
      OldPointIsNotNew(db, d, o, p);
    }
  }

  lemma {:induction false} OldPointIsNotNew(db: Database, d: Device, o: Id, p: Id)
    requires Fits(db, d) && Owns(db, o, p)
    ensures !d.HasPoint(p)
  {
  }

  /** Rows other than the new one are owned as before. */
  lemma {:induction false} KeepsOwners(db: Database, after: Database, d: Id)
    requires d !in db.devices
    requires forall e :: e in db.devices ==> e in after.devices && after.devices[e] == db.devices[e]
    ensures forall e, p :: Owns(db, e, p) ==> Owns(after, e, p)
  {
  }

  /** Creating a camera whose point is of a locked registered page of its event, and unlinked. */
  lemma {:induction false} CreateCamera(db: Database, d: Device, page: Device)
    requires LinksAreRight(db) && IsNew(d) && d.kind.CameraDevice? && Fits(db, d)
    requires KnowsRow(db, RegisterCamera(d), page) && !IsLinked(db, d.links[0].pointId)
    ensures LinksAreRight(Created(db, d)) && Respects(db, Created(db, d), {page.id})
    ensures !Violates(db, d)
  {
    CreatedUnique(db, d);
    CreatedHomes(db, d, page);
    CreatedLinks(db, d, page);
    CreatedRows(db, d);
    OneLinkEach(db, d);
    hide UniquePoints, IsHome, Respects, KnowsRow, Fits, Created, RowIsRight, IsLinked, Registered;
  }

  lemma {:induction false} CreatedRows(db: Database, d: Device)
    requires IsNew(d) && forall e :: e in db.devices ==> RowIsRight(db, e)
    ensures forall e :: e in Created(db, d).devices ==> RowIsRight(Created(db, d), e)
  {
    forall e | e in Created(db, d).devices
      ensures RowIsRight(Created(db, d), e)
    {
      assert e != d.id ==> RowIsRight(db, e);
    }
  }

  lemma {:induction false} OneLinkEach(db: Database, d: Device)
    requires LinksAreRight(db) && IsNew(d) && d.kind.CameraDevice? && d.id !in db.devices
    requires !IsLinked(db, d.links[0].pointId)
    ensures d.id !in db.links
    ensures var after := Created(db, d);
      forall c, e :: c in after.links && e in after.links && after.links[c] == after.links[e] ==> c == e
  {
    hide UniquePoints, IsHome, RowIsRight;
    assert d.id in db.links <==> Registered(db, d.id);
  }

  lemma {:induction false} CreatedLinks(db: Database, d: Device, page: Device)
    requires LinksAreRight(db) && IsNew(d) && d.kind.CameraDevice? && Fits(db, d)
    requires KnowsRow(db, RegisterCamera(d), page)
    ensures Respects(db, Created(db, d), {page.id})
    ensures forall c :: c in Created(db, d).links <==> Registered(Created(db, d), c)
  {
    assert Owns(db, page.id, d.links[0].pointId);
    assert LinksInto(db, {page.id}, d.links[0].pointId);
    hide Owns, IsHome, LinksInto, UniquePoints;
  }

  lemma {:induction false} CreatedUnique(db: Database, d: Device)
    requires LinksAreRight(db) && Fits(db, d)
    ensures UniquePoints(Created(db, d))
  {
    forall e, f, q | Owns(Created(db, d), e, q) && Owns(Created(db, d), f, q)
      ensures e == f
    {
      NewPointsOwned(db, d, e, f, q);
    }
  }

  lemma {:induction false} CreatedHomes(db: Database, d: Device, page: Device)
    requires LinksAreRight(db) && IsNew(d) && d.kind.CameraDevice? && d.id !in db.devices
    requires KnowsRow(db, RegisterCamera(d), page)
    ensures forall c :: c in Created(db, d).links ==> exists h :: IsHome(Created(db, d), c, h)
  {
    var after := Created(db, d);
    assert IsHome(after, d.id, page.id);
    forall c | c in after.links
      ensures exists h :: IsHome(after, c, h)
    {
      if c != d.id {
        var h :| IsHome(db, c, h);
        assert IsHome(after, c, h);
      }
    }
  }

  /** Saving a row in its own shape, which stays registered. */
  lemma {:induction false} SaveRow(db: Database, d: Device)
    requires LinksAreRight(db) && d.id in db.devices && SameShape(db.devices[d.id], d)
    requires d.kind.ObservationPage? && d.links == [] && !d.unregistered
    ensures LinksAreRight(Saved(db, d)) && Respects(db, Saved(db, d), {d.id})
  {
    SavedRows(db, d);
    SavedHomes(db, d);
    SavedLinks(db, d);
    hide IsHome, RowIsRight, UniquePoints, SameShape, Respects, Registered;
  }

  lemma {:induction false} SavedHomes(db: Database, d: Device)
    requires LinksAreRight(db) && d.id in db.devices && SameShape(db.devices[d.id], d)
    requires d.kind.ObservationPage? && d.links == [] && !d.unregistered
    ensures forall c :: c in Saved(db, d).links ==> exists h :: IsHome(Saved(db, d), c, h)
  {
    SavedOwners(db, d);
    hide UniquePoints, RowIsRight;
    forall c | c in Saved(db, d).links
      ensures exists h :: IsHome(Saved(db, d), c, h)
    {
      var h :| IsHome(db, c, h);
      assert IsHome(Saved(db, d), c, h);
    }
  }

  lemma {:induction false} SavedLinks(db: Database, d: Device)
    requires LinksAreRight(db) && d.id in db.devices && SameShape(db.devices[d.id], d) && d.kind.ObservationPage?
    ensures forall c :: c in Saved(db, d).links <==> Registered(Saved(db, d), c)
  {
    hide IsHome, UniquePoints, RowIsRight;
    forall c
      ensures c in Saved(db, d).links <==> Registered(Saved(db, d), c)
    {
      assert c in db.links <==> Registered(db, c);
    }
  }

  /** Rows and owners stay right when a row is saved in its own shape. */
  lemma {:induction false} SavedRows(db: Database, d: Device)
    requires LinksAreRight(db) && d.id in db.devices && SameShape(db.devices[d.id], d) && d.links == []
    requires d.unregistered ==> AllDisabled(d)
    ensures var after := Saved(db, d);
      && (forall e :: e in after.devices ==> RowIsRight(after, e))
      && UniquePoints(after) && Respects(db, after, {d.id})
  {
    SavedOwners(db, d);
    SavedRespects(db, d);
    assert RowIsRight(db, d.id);
    hide IsHome, Registered, Owns, Respects, SameShape;
    assert forall e :: e in db.devices && e != d.id ==> RowIsRight(db, e);
  }

  lemma {:induction false} SavedRespects(db: Database, d: Device)
    requires d.id in db.devices && SameShape(db.devices[d.id], d) && d.links == []
    ensures Respects(db, Saved(db, d), {d.id})
  {
    assert SameShape(db.devices[d.id], d.(links := []));
    hide Owns;
  }

  lemma {:induction false} SavedOwners(db: Database, d: Device)
    requires d.id in db.devices && SameShape(db.devices[d.id], d) && d.links == []
    ensures forall e, p :: Owns(Saved(db, d), e, p) <==> Owns(db, e, p)
  {
    forall e, p
      ensures Owns(Saved(db, d), e, p) <==> Owns(db, e, p)
    {
      if e == d.id {
        SamePoints(db.devices[d.id], d, p);
      }
    }
  }

  /** Unregistering a camera drops its link and nothing else. */
  lemma {:induction false} UnregisterCamera(db: Database, d: Device)
    requires LinksAreRight(db) && d.id in db.devices && db.devices[d.id] == d && d.kind.CameraDevice?
    ensures LinksAreRight(Saved(db, AfterUnregister(d))) && Respects(db, Saved(db, AfterUnregister(d)), {d.id})
  {
    var gone := AfterUnregister(d);
    assert SameShape(d, gone) && gone.unregistered && AllDisabled(gone);
    assert RowIsRight(db, d.id);
    SavedRows(db, gone);
    GoneHomes(db, d);
    GoneLinks(db, d);
    hide IsHome, AfterUnregister, Owns, Registered, RowIsRight, UniquePoints, Respects, SameShape;
  }

  lemma {:induction false} GoneHomes(db: Database, d: Device)
    requires LinksAreRight(db) && d.id in db.devices && db.devices[d.id] == d && d.kind.CameraDevice?
    ensures var after := Saved(db, AfterUnregister(d)); forall c :: c in after.links ==> exists h :: IsHome(after, c, h)
  {
    var after := Saved(db, AfterUnregister(d));
    forall c | c in after.links
      ensures exists h :: IsHome(after, c, h)
    {
      var h :| IsHome(db, c, h);
      assert IsHome(after, c, h);
    }
  }

  lemma {:induction false} GoneLinks(db: Database, d: Device)
    requires LinksAreRight(db) && d.id in db.devices && db.devices[d.id] == d && d.kind.CameraDevice?
    ensures var after := Saved(db, AfterUnregister(d)); forall c :: c in after.links <==> Registered(after, c)
  {
    hide IsHome, UniquePoints, RowIsRight;
    forall c
      ensures c in Saved(db, AfterUnregister(d)).links <==> Registered(Saved(db, AfterUnregister(d)), c)
    {
      assert c in db.links <==> Registered(db, c);
    }
  }

  /** What a cascade starts from: the rows it holds, and every camera still linked to the page. */
  ghost predicate ReadyToCascade(db: Database, page: Device, doomed: map<Id, Device>) {
    && page.id in db.devices && db.devices[page.id] == page && page.kind.ObservationPage?
    && (forall c :: c in doomed ==> Registered(db, c) && db.devices[c] == doomed[c])
    && (forall c :: c in db.links && page.HasPoint(db.links[c]) ==> c in doomed)
  }

  /** What a row is after the cascade. */
  function CascadedRow(db: Database, page: Device, doomed: map<Id, Device>, d: Id): Device
    requires d in db.devices
  {
    if d == page.id || d in doomed then AfterUnregister(db.devices[d]) else db.devices[d]
  }

  lemma {:induction false} CascadedRows(db: Database, page: Device, doomed: map<Id, Device>)
    requires ReadyToCascade(db, page, doomed) && page.links == []
    ensures var after := Cascaded(db, page, doomed);
      && after.devices.Keys == db.devices.Keys && after.links == db.links - doomed.Keys
      && forall d :: d in db.devices ==> after.devices[d] == CascadedRow(db, page, doomed, d)
  {
  }

  /** The same device, unregistered with all its points when it is gone, and untouched otherwise. */
  ghost predicate IsAfter(d: Device, e: Device, gone: bool) {
    SameShape(d, e) && e.links == d.links && if gone then e.unregistered && AllDisabled(e) else e == d
  }

  ghost predicate IsCascade(db: Database, after: Database, page: Id, doomed: set<Id>) {
    && after.devices.Keys == db.devices.Keys && after.links == db.links - doomed
    && forall d :: d in db.devices ==> IsAfter(db.devices[d], after.devices[d], d == page || d in doomed)
  }

  lemma {:induction false} CascadeOf(db: Database, page: Device, doomed: map<Id, Device>)
    requires LinksAreRight(db) && ReadyToCascade(db, page, doomed)
    ensures IsCascade(db, Cascaded(db, page, doomed), page.id, doomed.Keys)
  {
    assert RowIsRight(db, page.id);
    CascadedRows(db, page, doomed);
    forall d | d in db.devices
      ensures IsAfter(db.devices[d], CascadedRow(db, page, doomed, d), d == page.id || d in doomed)
    {
      RowAfterCascade(db, page, doomed, d);
    }
    hide Cascaded, CascadedRow, IsAfter, LinksAreRight, ReadyToCascade;
  }

  lemma {:induction false} RowAfterCascade(db: Database, page: Device, doomed: map<Id, Device>, d: Id)
    requires d in db.devices && RowIsRight(db, d)
    ensures IsAfter(db.devices[d], CascadedRow(db, page, doomed, d), d == page.id || d in doomed)
  {
  }

  lemma {:induction false} CascadedOwners(db: Database, after: Database, page: Id, doomed: set<Id>)
    requires IsCascade(db, after, page, doomed)
    ensures forall e, p :: Owns(after, e, p) <==> Owns(db, e, p)
  {
    forall e, p
      ensures Owns(after, e, p) <==> Owns(db, e, p)
    {
      if e in db.devices {
        SamePoints(db.devices[e], after.devices[e], p);
      }
    }
  }

  /** Unregistering a page with all cameras linked to it leaves no link to its points. */
  lemma {:induction false} UnregisterPage(db: Database, page: Device, doomed: map<Id, Device>)
    requires LinksAreRight(db) && ReadyToCascade(db, page, doomed)
    ensures LinksAreRight(Cascaded(db, page, doomed))
    ensures Respects(db, Cascaded(db, page, doomed), {page.id} + doomed.Keys)
  {
    var after := Cascaded(db, page, doomed);
    CascadeOf(db, page, doomed);
    CascadedOwners(db, after, page.id, doomed.Keys);
    CascadedLinks(db, after, page, doomed);
    CascadedHomes(db, after, page, doomed);
    hide Cascaded, ReadyToCascade, LinksAreRight, Registered, IsHome, IsCascade;
    CascadedStaysRight(db, after, page.id, doomed.Keys);
  }

  lemma {:induction false} CascadedStaysRight(db: Database, after: Database, page: Id, doomed: set<Id>)
    requires LinksAreRight(db) && IsCascade(db, after, page, doomed)
    requires forall e, p :: Owns(after, e, p) <==> Owns(db, e, p)
    requires forall c :: c in after.links <==> Registered(after, c)
    requires forall c :: c in after.links ==> exists h :: IsHome(after, c, h)
    ensures LinksAreRight(after) && Respects(db, after, {page} + doomed)
  {
    hide IsHome, Registered, Device.HasPoint, Owns;
    forall d | d in after.devices
      ensures RowIsRight(after, d)
    {
      assert RowIsRight(db, d);
      assert IsAfter(db.devices[d], after.devices[d], d == page || d in doomed);
    }
  }

  lemma {:induction false} CascadedLinks(db: Database, after: Database, page: Device, doomed: map<Id, Device>)
    requires LinksAreRight(db) && ReadyToCascade(db, page, doomed) && IsCascade(db, after, page.id, doomed.Keys)
    ensures forall c :: c in after.links <==> Registered(after, c)
  {
    forall c
      ensures c in after.links <==> Registered(after, c)
    {
      assert c in db.links <==> Registered(db, c);
    }
  }

  lemma {:induction false} CascadedHomes(db: Database, after: Database, page: Device, doomed: map<Id, Device>)
    requires LinksAreRight(db) && ReadyToCascade(db, page, doomed) && IsCascade(db, after, page.id, doomed.Keys)
    requires forall e, p :: Owns(after, e, p) <==> Owns(db, e, p)
    ensures forall c :: c in after.links ==> exists h :: IsHome(after, c, h)
  {
    forall c | c in after.links
      ensures exists h :: IsHome(after, c, h)
    {
      var h :| IsHome(db, c, h);
      HomeStays(db, after, page, doomed, c, h);
    }
  }

  lemma {:induction false} HomeStays(db: Database, after: Database, page: Device, doomed: map<Id, Device>, c: Id, h: Id)
    requires ReadyToCascade(db, page, doomed) && IsCascade(db, after, page.id, doomed.Keys)
    requires c in after.links && IsHome(db, c, h)
    requires Owns(after, h, db.links[c]) <==> Owns(db, h, db.links[c])
    ensures IsHome(after, c, h)
  {
    hide Device.HasPoint, AllDisabled;
    assert h != page.id && h !in doomed;
    assert IsAfter(db.devices[h], after.devices[h], false);
    assert IsAfter(db.devices[c], after.devices[c], c == page.id || c in doomed);
  }
}
