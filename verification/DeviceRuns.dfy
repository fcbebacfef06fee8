/** Runs of interleaved device transactions: what always holds, what lasts, and why none of them
    waits for itself. */
module DeviceRuns {
  import opened Basics
  import opened Devices
  import opened EdgeDevices
  import opened DeviceTransactions
  import opened DeviceSafety

  /** Devices never go away, and unregistered ones are never registered again. */
  ghost predicate Lasts(db: Database, after: Database) {
    forall d :: d in db.devices ==> d in after.devices && SameShape(db.devices[d], after.devices[d])
  }

  ghost predicate Keeps(s: System, n: System) {
    Inv(n) && Lasts(s.db, n.db)
  }

  lemma {:induction false} DropKeeps(s: System, t: Id)
    requires Inv(s) && t in s.running
    ensures Keeps(s, Drop(s, t))
  {
    DropKeepsInv(s, t);
  }

  lemma {:induction false} FinishKeeps(s: System, t: Id, after: Database, owned: set<Id>)
    requires Inv(s) && t in s.running && owned <= Held(s.running[t].stage)
    requires LinksAreRight(after) && Respects(s.db, after, owned)
    ensures Keeps(s, Finish(s, t, after))
  {
    RespectsMore(s.db, after, owned, Held(s.running[t].stage));
    FinishKeepsInv(s, t, after);
  }

  lemma {:induction false} RespectsMore(db: Database, after: Database, owned: set<Id>, more: set<Id>)
    requires Respects(db, after, owned) && owned <= more
    ensures Respects(db, after, more)
  {
    forall c | c in after.links && !(c in db.links && after.links[c] == db.links[c])
      ensures LinksInto(db, more, after.links[c])
    {
      var d :| d in owned && Owns(db, d, after.links[c]);
      assert d in more;
    }
  }

  lemma {:induction false} StartingKeeps(s: System, t: Id)
    requires Inv(s) && t in s.running && s.running[t].stage == Starting
    ensures Keeps(s, StepStarting(s, t))
  {
    var tx := s.running[t];
    assert Knows(s.db, tx);
    match NextLock(s.db, tx)
    case None => DropKeeps(s, t);
    case Some(d) =>
      assert IsFirst(s.db, tx.request, d);
      if d !in s.locks {
        if tx.request.Unregister? {
          assert RowIsRight(s.db, d);
          if s.db.devices[d].eventId != tx.request.eventId || s.db.devices[d].unregistered {
            DropKeeps(s, t);
          } else {
            LockKeepsInv(s, t, d, Loaded(s.db.devices[d]));
          }
        } else {
          LockKeepsInv(s, t, d, Locked(d));
        }
      }
  }

  lemma {:induction false} LockedKeeps(s: System, t: Id, d: Id)
    requires Inv(s) && t in s.running && s.running[t].stage == Locked(d)
    ensures Keeps(s, StepLocked(s, t, d))
  {
    assert Knows(s.db, s.running[t]);
    assert RowIsRight(s.db, d);
    var n := StepLocked(s, t, d);
    if n == Drop(s, t) {
      DropKeeps(s, t);
    } else {
      AdvanceKeepsInv(s, t, Loaded(s.db.devices[d]));
    }
  }

  lemma {:induction false} LoadedKeeps(s: System, t: Id, device: Device, listing: seq<CameraLink>)
    requires Inv(s) && t in s.running && s.running[t].stage == Loaded(device) && WellFormed(s.running[t].request)
    ensures Keeps(s, StepLoaded(s, t, device, listing))
  {
    var r := s.running[t].request;
    assert Knows(s.db, s.running[t]);
    assert RowIsRight(s.db, device.id);
    match r
    case RegisterCamera(_) =>
      if IsLinked(s.db, PointOf(r)) {
        DropKeeps(s, t);
      } else {
        AdvanceKeepsInv(s, t, Free(device));
      }
    case Configure(_, _, _, _) =>
      SaveRow(s.db, Configured(device, r));
      FinishKeeps(s, t, Saved(s.db, Configured(device, r)), {device.id});
    case Unregister(_, _) =>
      if device.kind.CameraDevice? {
        UnregisterCamera(s.db, device);
        FinishKeeps(s, t, Saved(s.db, AfterUnregister(device)), {device.id});
      } else if IsListing(s.db, device, listing) {
        ListedCameras(s.db, device, listing);
        AdvanceKeepsInv(s, t, Cascading(device, CascadeOrder(listing), {}, map[]));
      }
  }

  /** The listed cameras are all that are linked to the page. */
  lemma {:induction false} ListedCameras(db: Database, page: Device, listing: seq<CameraLink>)
    requires LinksAreRight(db) && IsListing(db, page, listing)
    ensures KnowsCameras(db, CascadeOrder(listing), {}, map[])
    ensures forall c :: c in db.links && page.HasPoint(db.links[c]) ==> c in CascadeOrder(listing)
    ensures forall c :: c in CascadeOrder(listing) && c in db.links ==> page.HasPoint(db.links[c])
  {
    CascadeOrderMeans(listing);
    forall c | c in CascadeOrder(listing)
      ensures IsCamera(db, c)
    {
      var i :| 0 <= i < |listing| && listing[i].cameraId == c;
      assert Registered(db, listing[i].cameraId);
    }
  }

  lemma {:induction false} FreeKeeps(s: System, t: Id, device: Device)
    requires Inv(s) && t in s.running && s.running[t].stage == Free(device) && WellFormed(s.running[t].request)
    ensures Keeps(s, StepFree(s, t))
  {
    var r := s.running[t].request;
    assert Knows(s.db, s.running[t]);
    if Violates(s.db, r.device) {
      DropKeeps(s, t);
    } else {
      CreateCamera(s.db, r.device, device);
      FinishKeeps(s, t, Created(s.db, r.device), {device.id});
    }
  }

  lemma {:induction false} CascadingKeeps(s: System, t: Id, stage: Stage)
    requires Inv(s) && t in s.running && s.running[t].stage == stage && stage.Cascading?
    ensures Keeps(s, StepCascading(s, t, stage))
  {
    assert Knows(s.db, s.running[t]);
    if |stage.pending| == 0 {
      hide Cascaded, LinksAreRight, Respects, LocksAreRight;
      UnregisterPage(s.db, stage.page, stage.doomed);
      FinishKeeps(s, t, Cascaded(s.db, stage.page, stage.doomed), {stage.page.id} + stage.doomed.Keys);
    } else if stage.pending[0] !in s.locks {
      CascadeLockKeeps(s, t, stage);
    }
  }

  lemma {:induction false} CascadeLockKeeps(s: System, t: Id, stage: Stage)
    requires Inv(s) && t in s.running && s.running[t].stage == stage && stage.Cascading?
    requires |stage.pending| > 0 && stage.pending[0] !in s.locks
    ensures Keeps(s, StepCascading(s, t, stage))
  {
    hide LinksAreRight, LocksAreRight, Knows, Lasts;
    var c := stage.pending[0];
    FirstIsCamera(s.db, s.running[t], stage);
    VisitedKnows(s.db, s.running[t], stage);
    VisitedHolds(s.db, stage);
    hide Held;
    LockKeepsInv(s, t, c, Visited(s.db, stage));
    LastsItself(s.db);
  }

  lemma {:induction false} VisitedHolds(db: Database, stage: Stage)
    requires stage.Cascading? && |stage.pending| > 0 && stage.pending[0] in db.devices
    ensures Held(Visited(db, stage)) == Held(stage) + {stage.pending[0]}
  {
  }

  lemma {:induction false} LastsItself(db: Database)
    ensures Lasts(db, db)
  {
  }

  lemma {:induction false} FirstIsCamera(db: Database, tx: Transaction, stage: Stage)
    requires Knows(db, tx) && tx.stage == stage && stage.Cascading? && |stage.pending| > 0
    ensures IsCamera(db, stage.pending[0])
  {
    assert stage.pending[0] in stage.pending;
  }

  lemma {:induction false} VisitedKnows(db: Database, tx: Transaction, stage: Stage)
    requires LinksAreRight(db) && Knows(db, tx) && tx.stage == stage && stage.Cascading? && |stage.pending| > 0
    requires IsCamera(db, stage.pending[0])
    ensures Knows(db, tx.(stage := Visited(db, stage)))
  {
    var after := Visited(db, stage);
    NextCamera(db, stage);
    NextAreListed(db, stage);
    hide KnowsCameras, UniquePoints, RowIsRight, IsHome, Visited, KnowsRow;
    forall e | e in db.links && stage.page.HasPoint(db.links[e])
      ensures e in after.pending || e in after.doomed
    {
      assert Registered(db, e);
      NextCovers(db, stage, e);
    }
  }

  lemma {:induction false} NextAreListed(db: Database, stage: Stage)
    requires stage.Cascading? && |stage.pending| > 0 && stage.pending[0] in db.devices
    ensures var after := Visited(db, stage);
      && after.Cascading? && after.page == stage.page
      && forall e :: e in after.pending || e in after.doomed ==> e in stage.pending || e in stage.doomed
  {
    assert stage.pending == [stage.pending[0]] + stage.pending[1..];
  }

  function Visited(db: Database, stage: Stage): Stage
    requires stage.Cascading? && |stage.pending| > 0 && stage.pending[0] in db.devices
  {
    var c := stage.pending[0];
    var next := stage.(pending := stage.pending[1..], visited := stage.visited + {c});
    if db.devices[c].unregistered then next else next.(doomed := stage.doomed[c := db.devices[c]])
  }

  lemma {:induction false} NextCamera(db: Database, stage: Stage)
    requires stage.Cascading? && |stage.pending| > 0 && KnowsCameras(db, stage.pending, stage.visited, stage.doomed)
    requires IsCamera(db, stage.pending[0])
    ensures var after := Visited(db, stage); KnowsCameras(db, after.pending, after.visited, after.doomed)
  {
    var c, after := stage.pending[0], Visited(db, stage);
    assert stage.pending == [c] + after.pending;
    forall i | 0 <= i < |after.pending|
      ensures Before(c, after.pending[i])
    {
      assert after.pending[i] == stage.pending[i + 1];
    }
    forall v, i | v in after.visited && 0 <= i < |after.pending|
      ensures Before(v, after.pending[i])
    {
      assert after.pending[i] == stage.pending[i + 1];
    }
  }

  /** Skipping an unregistered camera skips no link, for it has none. */
  lemma {:induction false} NextCovers(db: Database, stage: Stage, e: Id)
    requires stage.Cascading? && |stage.pending| > 0 && IsCamera(db, stage.pending[0])
    requires Registered(db, e) && (e in stage.pending || e in stage.doomed)
    ensures var after := Visited(db, stage); e in after.pending || e in after.doomed
  {
    assert stage.pending == [stage.pending[0]] + stage.pending[1..];
  }

  /** One action of any transaction keeps the invariant. */
  lemma {:induction false} NextKeeps(s: System, a: Action)
    requires Inv(s) && Enabled(s, a)
    ensures Keeps(s, Next(s, a))
  {
    hide Keeps, LinksAreRight, LocksAreRight, Knows, Respects, Fits, Created, Beaten, Finish;
    match a
    case RegisterPage(d) =>
      CreatePage(s.db, d);
      CommitKeeps(s, Created(s.db, d), {});
    case Beat(d, at, activeAt) =>
      BeatKeepsLinks(s.db, d, at, activeAt);
      CommitKeeps(s, s.db.(devices := s.db.devices[d := Beaten(s.db.devices[d], at, activeAt)]), {d});
    case Begin(t, r) => BeginKeeps(s, t, r);
    case Abort(t) => DropKeeps(s, t);
    case Step(t, listing) =>
      match s.running[t].stage
      case Starting => StartingKeeps(s, t);
      case Locked(d) => LockedKeeps(s, t, d);
      case Loaded(d) => LoadedKeeps(s, t, d, listing);
      case Free(d) => FreeKeeps(s, t, d);
      case Cascading(_, _, _, _) => CascadingKeeps(s, t, s.running[t].stage);
  }

  lemma {:induction false} RespectsLasts(db: Database, after: Database, owned: set<Id>)
    requires Respects(db, after, owned)
    ensures Lasts(db, after)
  {
  }

  lemma {:induction false} BeginKeeps(s: System, t: Id, r: Request)
    requires Inv(s) && t !in s.running && WellFormed(r)
    ensures Keeps(s, s.(running := s.running[t := Transaction(r, Starting)]))
  {
    BeginKeepsLocks(s, t, r);
    LastsItself(s.db);
    hide LinksAreRight, LocksAreRight, Lasts;
  }

  lemma {:induction false} BeginKeepsLocks(s: System, t: Id, r: Request)
    requires LocksAreRight(s) && t !in s.running
    ensures LocksAreRight(s.(running := s.running[t := Transaction(r, Starting)]))
  {
  }

  /** A commit of a single statement, whose rows nobody has locked. */
  lemma {:induction false} CommitKeeps(s: System, after: Database, owned: set<Id>)
    requires Inv(s) && LinksAreRight(after) && Respects(s.db, after, owned)
    requires forall d :: d in owned ==> d !in s.locks
    ensures Keeps(s, s.(db := after))
  {
    RespectsLasts(s.db, after, owned);
    SameLocks(s, after);
    hide Knows, LinksAreRight, Respects, Lasts, LocksAreRight;
    forall u | u in s.running
      ensures Knows(after, s.running[u])
    {
      KnowsUnlocked(s, after, owned, u);
    }
  }

  lemma {:induction false} SameLocks(s: System, after: Database)
    requires LocksAreRight(s)
    ensures LocksAreRight(s.(db := after))
  {
  }

  lemma {:induction false} KnowsUnlocked(s: System, after: Database, owned: set<Id>, u: Id)
    requires Inv(s) && u in s.running && Respects(s.db, after, owned)
    requires forall d :: d in owned ==> d !in s.locks
    ensures Knows(after, s.running[u])
  {
    hide LinksAreRight, Respects, Knows;
    assert forall d :: d in Held(s.running[u].stage) ==> d in s.locks;
    StillKnows(s.db, after, owned, s.running[u]);
  }

  lemma {:induction false} BeatKeepsLinks(db: Database, d: Id, at: Time, activeAt: map<Id, Time>)
    requires LinksAreRight(db) && d in db.devices && !db.devices[d].unregistered && db.devices[d].kind.ObservationPage?
    ensures var after := db.(devices := db.devices[d := Beaten(db.devices[d], at, activeAt)]);
      LinksAreRight(after) && Respects(db, after, {d})
  {
    assert RowIsRight(db, d);
    SaveRow(db, Beaten(db.devices[d], at, activeAt));
    assert Saved(db, Beaten(db.devices[d], at, activeAt))
        == db.(devices := db.devices[d := Beaten(db.devices[d], at, activeAt)]);
  }

  /** Every reachable state: exactly the registered cameras are linked, each to a point of its own
      of a registered page of its event, and the points of unregistered pages are disabled. */
  lemma {:induction false} ReachableInv(actions: seq<Action>)
    ensures Inv(Exec(actions))
  {
    if |actions| > 0 {
      var s, a := Exec(actions[..|actions| - 1]), actions[|actions| - 1];
      ReachableInv(actions[..|actions| - 1]);
      if Enabled(s, a) {
        NextKeeps(s, a);
      }
    }
  }

  lemma {:induction false} LastsTransitive(a: Database, b: Database, c: Database)
    requires Lasts(a, b) && Lasts(b, c)
    ensures Lasts(a, c)
  {
  }

  lemma {:induction false} StepLasts(actions: seq<Action>, a: Action)
    ensures Lasts(Exec(actions).db, Exec(actions + [a]).db)
  {
    var s := Exec(actions);
    assert (actions + [a])[..|actions|] == actions;
    ReachableInv(actions);
    hide Inv;
    if Enabled(s, a) {
      NextKeeps(s, a);
    }
  }

  lemma {:induction false} StatesLast(actions: seq<Action>, more: seq<Action>)
    ensures Lasts(Exec(actions).db, Exec(actions + more).db)
  {
    if |more| == 0 {
      assert actions + more == actions;
    } else {
      var rest, a := more[..|more| - 1], more[|more| - 1];
      hide Exec;
      StatesLast(actions, rest);
      StepLasts(actions + rest, a);
      assert actions + more == actions + rest + [a];
      hide Lasts;
      LastsTransitive(Exec(actions).db, Exec(actions + rest).db, Exec(actions + more).db);
    }
  }

  /** An unregistered device stays so, its points stay disabled, and no link to or from it is ever
      made again, whatever runs after. */
  lemma {:induction false} UnregisteredForever(actions: seq<Action>, more: seq<Action>, d: Id)
    requires d in Exec(actions).db.devices && Exec(actions).db.devices[d].unregistered
    ensures var db := Exec(actions + more).db;
      && d in db.devices && db.devices[d].unregistered && AllDisabled(db.devices[d])
      && d !in db.links
      && (forall c :: c in db.links ==> !db.devices[d].HasPoint(db.links[c]))
  {
    StatesLast(actions, more);
    ReachableInv(actions + more);
    var db := Exec(actions + more).db;
    assert RowIsRight(db, d);
    forall c | c in db.links
      ensures !db.devices[d].HasPoint(db.links[c])
    {
      var h :| IsHome(db, c, h);
      OwnedOnce(db, d, h, db.links[c]);
    }
  }

  lemma {:induction false} OwnedOnce(db: Database, d: Id, h: Id, p: Id)
    requires UniquePoints(db) && d in db.devices && Owns(db, h, p) && d != h
    ensures !db.devices[d].HasPoint(p)
  {
    assert Owns(db, d, p) ==> d == h;
  }

  /** When a registration comes to insert its camera, the point is not linked: the insertion violates
      a unique index exactly when the ID drawn for the camera is taken. */
  lemma {:induction false} LinkInsertionNeverViolates(actions: seq<Action>, t: Id)
    requires var s := Exec(actions); t in s.running && s.running[t].stage.Free? && WellFormed(s.running[t].request)
    ensures var s := Exec(actions);
      && s.running[t].request.RegisterCamera?
      && !IsLinked(s.db, PointOf(s.running[t].request))
      && (Violates(s.db, s.running[t].request.device) <==> s.running[t].request.device.id in s.db.devices)
  {
    ReachableInv(actions);
    var s := Exec(actions);
    hide Exec;
    assert Knows(s.db, s.running[t]);
    var camera := s.running[t].request.device;
    assert camera.id in s.db.links <==> Registered(s.db, camera.id);
  }

  /** Pages before cameras, and cameras by their IDs. */
  predicate LockBefore(db: Database, a: Id, b: Id) {
    && a in db.devices && b in db.devices
    && (|| (db.devices[a].kind.ObservationPage? && db.devices[b].kind.CameraDevice?)
        || (db.devices[a].kind.CameraDevice? && db.devices[b].kind.CameraDevice? && Before(a, b)))
  }

  /** t cannot go on before u releases the row that t locks next. */
  ghost predicate Waits(s: System, t: Id, u: Id) {
    && t in s.running && u in s.running && WellFormed(s.running[t].request)
    && var d := NextLock(s.db, s.running[t]); d.Some? && d.value in s.locks && s.locks[d.value] == u
  }

  /** Locks are taken in one order: a transaction holds only rows before the one it locks next. */
  lemma {:induction false} LocksInOrder(s: System, t: Id, d: Id)
    requires Inv(s) && t in s.running && WellFormed(s.running[t].request)
    requires NextLock(s.db, s.running[t]).Some? && d in Held(s.running[t].stage)
    ensures LockBefore(s.db, d, NextLock(s.db, s.running[t]).value)
  {
    assert Knows(s.db, s.running[t]);
    var stage := s.running[t].stage;
    var c := stage.pending[0];
    assert IsCamera(s.db, c);
    if d != stage.page.id {
      assert IsCamera(s.db, d);
    }
  }

  lemma {:induction false} LockBeforeIsOrder(db: Database, a: Id, b: Id, c: Id)
    ensures !LockBefore(db, a, a)
    ensures LockBefore(db, a, b) && LockBefore(db, b, c) ==> LockBefore(db, a, c)
  {
    BeforeIrreflexive(a);
    if Before(a, b) && Before(b, c) {
      BeforeTransitive(a, b, c);
    }
  }

  /** A chain of waiting transactions. */
  ghost predicate IsChain(s: System, ts: seq<Id>) {
    forall i :: 0 <= i < |ts| - 1 ==> Waits(s, ts[i], ts[i + 1])
  }

  ghost function AwaitedLock(s: System, t: Id): Id
    requires exists u :: Waits(s, t, u)
  {
    NextLock(s.db, s.running[t]).value
  }

  lemma {:induction false} AwaitedInOrder(s: System, ts: seq<Id>, i: int)
    requires Inv(s) && IsChain(s, ts) && 0 <= i < |ts| - 2
    ensures Waits(s, ts[i], ts[i + 1]) && Waits(s, ts[i + 1], ts[i + 2])
    ensures LockBefore(s.db, AwaitedLock(s, ts[i]), AwaitedLock(s, ts[i + 1]))
  {
    assert Waits(s, ts[i], ts[i + 1]);
    var j := i + 1;
    assert Waits(s, ts[j], ts[j + 1]);
    LocksInOrder(s, ts[j], AwaitedLock(s, ts[i]));
  }

  lemma {:induction false} FirstAwaitedBeforeLast(s: System, ts: seq<Id>, k: int)
    requires Inv(s) && IsChain(s, ts) && 0 < k < |ts| - 1
    ensures Waits(s, ts[0], ts[1]) && Waits(s, ts[k], ts[k + 1])
    ensures LockBefore(s.db, AwaitedLock(s, ts[0]), AwaitedLock(s, ts[k]))
  {
    AwaitedInOrder(s, ts, k - 1);
    if k > 1 {
      FirstAwaitedBeforeLast(s, ts, k - 1);
      LockBeforeIsOrder(s.db, AwaitedLock(s, ts[0]), AwaitedLock(s, ts[k - 1]), AwaitedLock(s, ts[k]));
    }
  }

  /** No reachable state has a cycle of waiting transactions. */
  lemma {:induction false} NoDeadlock(actions: seq<Action>, ts: seq<Id>)
    requires |ts| >= 2 && ts[0] == ts[|ts| - 1]
    ensures !IsChain(Exec(actions), ts)
  {
    var s := Exec(actions);
    ReachableInv(actions);
    if IsChain(s, ts) {
      var d := CycleIsOrdered(s, ts);
      LockBeforeIsOrder(s.db, d, d, d);
    }
  }

  /** Around a cycle, the first awaited row would be before itself. */
  lemma {:induction false} CycleIsOrdered(s: System, ts: seq<Id>) returns (d: Id)
    requires Inv(s) && IsChain(s, ts) && |ts| >= 2 && ts[0] == ts[|ts| - 1]
    ensures LockBefore(s.db, d, d)
  {
    var round := ts + [ts[1]];
    forall i | 0 <= i < |round| - 1
      ensures Waits(s, round[i], round[i + 1])
    {
      if i < |ts| - 1 {
        assert Waits(s, ts[i], ts[i + 1]);
      } else {
        var first := 0;
        assert Waits(s, ts[first], ts[first + 1]);
      }
    }
    FirstAwaitedBeforeLast(s, round, |ts| - 1);
    d := AwaitedLock(s, ts[0]);
  }
}
