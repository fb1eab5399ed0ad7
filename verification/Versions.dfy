// Edits and deletions of a device check first and compare versions later, without a lock in
// between. This file says exactly which of them no interleaving can turn into harm.

module Versions {
  import opened Wrappers
  import opened Inventory
  import opened Transactions
  import opened InventoryProofs
  import opened Interleaving
  import opened Interference
  import opened Refinement

  /** Committed tables, one transaction after another. */
  ghost predicate Run(dbs: seq<Db>, requests: seq<Request>) {
    && |dbs| == |requests| + 1
    && forall i :: 0 <= i < |requests| ==> Next(dbs[i], requests[i], dbs[i + 1])
  }

  lemma {:induction false} RunKeepsInv(dbs: seq<Db>, requests: seq<Request>, i: nat)
    requires Run(dbs, requests) && i < |dbs| && Inv(dbs[0])
    ensures Inv(dbs[i])
  {
    hide Inv, Next;
    if i > 0 {
      RunKeepsInv(dbs, requests, i - 1);
      assert Next(dbs[i - 1], requests[i - 1], dbs[i - 1 + 1]);
      NextKeepsInv(dbs[i - 1], requests[i - 1], dbs[i]);
    }
  }

  // ----- edits and deletions without locks -----

  predicate Unlocked(r: Request) {
    r.UpdateDevice? || r.DeleteDevice?
  }

  /**
   * The edit or deletion fetches its device from the first tables, reads its position from the `k`-th and
   * meets the last ones when its conditional update gets through: the commits between break the invariant.
   */
  ghost predicate Breaks(dbs: seq<Db>, requests: seq<Request>, k: nat, r: Request)
    requires k < |dbs|
  {
    && Run(dbs, requests)
    && var fetched := Execute(dbs[0], r, FetchDevice, NOTHING_READ);
       && fetched.Some?
       && var read := Execute(dbs[k], r, ReadPosition, fetched.value);
          && read.Some?
          && var last := dbs[|dbs| - 1];
             && Execute(last, r, CasDevice, read.value).Some?
             && Publish(last, r, read.value).Done?
             && !Inv(Publish(last, r, read.value).db)
  }

  ghost predicate Placed(db: Db, d: Id) {
    Active(db.positions, d).Some?
  }

  /** The edit writes back the height that it has read. */
  predicate KeepsHeight(dev: Device, r: Request) {
    r.UpdateDevice? && UpdatedHeight(r.newHeight, dev) == dev.heightU
  }

  /** A lifecycle from which a device must be taken out before it can be placed. */
  predicate Stranded(dev: Device) {
    dev.lifecycle == PendingRemoval || dev.lifecycle.CustomLifecycle?
  }

  predicate Doomed(dev: Device) {
    dev.deleted || dev.lifecycle == Scrapped
  }

  /**
   * How many commits it takes to put the device where the request does harm: one to place it, one before that
   * to take it out of a rack or of a lifecycle that is not assignable, and one to give it a height, if it has
   * none or the request would otherwise write the right one.
   */
  ghost function Detour(db: Db, r: Request): nat
    requires Unlocked(r) && r.id in db.devices
  {
    var dev := db.devices[r.id];
    1 + (if Placed(db, r.id) || Stranded(dev) then 1 else 0) + (if KeepsHeight(dev, r) || dev.heightU < 1 then 1 else 0)
  }

  /** The version in the request is not so far ahead that the device could be led there and placed. */
  ghost predicate Harmless(db: Db, r: Request)
    requires Unlocked(r)
  {
    r.id !in db.devices || Doomed(db.devices[r.id]) || r.expected < db.devices[r.id].version + Detour(db, r)
  }

  // ----- what one commit does to a device -----

  datatype Change = Unchanged | Gone | Edited | PlacedNow | TakenOut

  ghost predicate Is(change: Change, db: Db, db': Db, d: Id)
    requires d in db.devices && d in db'.devices
  {
    var dev, dev' := db.devices[d], db'.devices[d];
    match change
    case Unchanged => dev' == dev && (Placed(db', d) <==> Placed(db, d))
    case Gone => dev'.deleted && dev'.version == dev.version + 1
    case Edited =>
      && dev' == dev.(version := dev.version + 1, heightU := dev'.heightU) && (Placed(db', d) <==> Placed(db, d))
      && (Placed(db, d) ==> dev'.heightU == dev.heightU)
    case PlacedNow =>
      && dev' == dev.(version := dev.version + 1, lifecycle := Running) && Placed(db', d)
      && !Doomed(dev) && !Stranded(dev) && 1 <= dev.heightU
    case TakenOut =>
      dev' == dev.(version := dev.version + 1, lifecycle := OffRack) && !Placed(db', d) && !Doomed(dev)
  }

  lemma SamePlacePlaced(before: map<Id, Position>, after: map<Id, Position>, d: Id)
    requires SamePlace(before, after, d)
    ensures Active(before, d).Some? <==> Active(after, d).Some?
  {
    var p, q := Active(before, d), Active(after, d);
    assert p.Some? ==> Holds(after, p.value, d);
    assert q.Some? ==> Holds(before, q.value, d);
  }

  lemma PlacedChange(db: Db, q: Placement)
    requires PlaceDevice(db, q).Done?
    ensures q.device in db.devices && q.device in PlaceDevice(db, q).db.devices
    ensures Is(PlacedNow, db, PlaceDevice(db, q).db, q.device)
  {
    hide ActiveAt, Conflict, Powered, ReleaseOccupancies;
    assert Holds(PlaceDevice(db, q).db.positions, q.position, q.device);
  }

  lemma TakenOutChange(db: Db, d: Id)
    requires OnePosition(db.positions) && RemoveDevice(db, d).Done?
    ensures d in db.devices && d in RemoveDevice(db, d).db.devices
    ensures Is(TakenOut, db, RemoveDevice(db, d).db, d)
  {
    ReleasedPositions(db, d);
  }

  lemma ApprovedChange(db: Db, r: Request)
    requires r.Approve? && ApproveRequest(db, r).Done?
    ensures r.id in db.approvals && db.approvals[r.id].device in db.devices
    ensures db.approvals[r.id].device in ApproveRequest(db, r).db.devices
    ensures Is(PlacedNow, db, ApproveRequest(db, r).db, db.approvals[r.id].device)
  {
    hide PlaceDevice, ApproveRequest;
    var q := ApprovalInParts(db, r);
    PlacedChange(db, q);
  }

  lemma EditedChange(db: Db, r: Request)
    requires Unlocked(r) && Apply(db, r).Done?
    ensures r.id in db.devices && r.id in Apply(db, r).db.devices
    ensures Is(if r.UpdateDevice? then Edited else Gone, db, Apply(db, r).db, r.id)
  {
  }

  /** The device a request is about. */
  function Subject(db: Db, r: Request): Option<Id> {
    match r
    case UpdateDevice(d, _, _) => Some(d)
    case DeleteDevice(d, _) => Some(d)
    case Place(q) => Some(q.device)
    case Remove(d) => Some(d)
    case Approve(id, _, _, _, _) => if id in db.approvals then Some(db.approvals[id].device) else None
    case _ => None
  }

  lemma MoveChange(db: Db, r: Request, db': Db)
    requires OnePosition(db.positions) && Apply(db, r) == Done(db')
    ensures r.Place? ==>
              && r.placement.device in db.devices && r.placement.device in db'.devices
              && Is(PlacedNow, db, db', r.placement.device)
    ensures r.Remove? ==> r.id in db.devices && r.id in db'.devices && Is(TakenOut, db, db', r.id)
  {
    hide Is, PlaceDevice, RemoveDevice;
    if r.Place? {
      PlacedChange(db, r.placement);
    } else if r.Remove? {
      TakenOutChange(db, r.id);
    }
  }

  lemma SubjectChange(db: Db, r: Request, db': Db) returns (change: Change)
    requires Inv(db) && Next(db, r, db') && Subject(db, r).Some?
    ensures Subject(db, r).value in db.devices && Subject(db, r).value in db'.devices
    ensures Is(change, db, db', Subject(db, r).value)
  {
    OnePositionOf(db);
    hide Inv, Is, Apply, ApproveRequest;
    if r.Place? || r.Remove? {
      MoveChange(db, r, db');
      change := if r.Place? then PlacedNow else TakenOut;
    } else if r.Approve? {
      ApplyApprove(db, r);
      ApprovedChange(db, r);
      change := PlacedNow;
    } else {
      EditedChange(db, r);
      change := if r.UpdateDevice? then Edited else Gone;
    }
  }

  /** A request locks no device but its subject, except to connect it. */
  lemma FootprintDevice(db: Db, r: Request, d: Id)
    requires !r.Connect? && Subject(db, r) != Some(d)
    ensures DeviceKey(d) !in Footprint(db, r)
  {
  }

  lemma OthersUntouched(db: Db, r: Request, db': Db, d: Id)
    requires Inv(db) && Next(db, r, db') && d in db.devices && Subject(db, r) != Some(d)
    ensures d in db'.devices && Is(Unchanged, db, db', d)
  {
    hide Inv, Next, ConnectionsRespect, RacksRespect, PdusRespect, ApprovalsRespect, SamePlace, Footprint, Subject;
    if r.Connect? {
      ConnectLeavesDevices(db, r, db');
    } else {
      NextRespects(db, r, db');
      FootprintDevice(db, r, d);
      SamePlacePlaced(db.positions, db'.positions, d);
    }
  }

  lemma ConnectLeavesDevices(db: Db, r: Request, db': Db)
    requires Next(db, r, db') && r.Connect?
    ensures db'.devices == db.devices && db'.positions == db.positions
  {
    ConnectionTables(db, r);
  }

  /** Whatever commits, a device stays as it is or undergoes one of four changes. */
  lemma DeviceStep(db: Db, r: Request, db': Db, d: Id) returns (change: Change)
    requires Inv(db) && Next(db, r, db') && d in db.devices
    ensures d in db'.devices && Is(change, db, db', d)
  {
    hide Inv, Next, Is, Subject;
    if Subject(db, r) == Some(d) {
      change := SubjectChange(db, r, db');
    } else {
      OthersUntouched(db, r, db', d);
      change := Unchanged;
    }
  }

  // ----- how far away the harm is -----

  ghost predicate Avoids(dev: Device, height: Option<int>) {
    1 <= dev.heightU && (height.Some? ==> dev.heightU != height.value)
  }

  /** How many commits it takes to have the device placed at a height other than the one given. */
  ghost function Distance(db: Db, d: Id, height: Option<int>): nat
    requires d in db.devices
  {
    var dev := db.devices[d];
    if Placed(db, d) then if Avoids(dev, height) then 0 else 3
    else 1 + (if Stranded(dev) then 1 else 0) + (if Avoids(dev, height) then 0 else 1)
  }

  lemma PlacedIsRunning(db: Db, d: Id)
    requires Inv(db) && d in db.devices && Placed(db, d)
    ensures LiveDevice(db.devices, d) && db.devices[d].lifecycle == Running && 1 <= db.devices[d].heightU
  {
    assert Holds(db.positions, Active(db.positions, d).value, d);
  }

  /** Every commit that brings the device nearer to harm moves its version on by one. */
  lemma StepClimbs(db: Db, r: Request, db': Db, d: Id, height: Option<int>)
    requires Inv(db) && Next(db, r, db') && d in db.devices
    ensures d in db'.devices
    ensures Doomed(db'.devices[d]) ||
            (!Doomed(db.devices[d])
             && db.devices[d].version + Distance(db, d, height) <= db'.devices[d].version + Distance(db', d, height))
  {
    hide Inv, Next;
    var change := DeviceStep(db, r, db', d);
    if Placed(db, d) {
      PlacedIsRunning(db, d);
    }
  }

  lemma {:induction false} RunClimbs(dbs: seq<Db>, requests: seq<Request>, i: nat, j: nat, d: Id, height: Option<int>)
    requires Run(dbs, requests) && i <= j < |dbs| && Inv(dbs[0]) && d in dbs[i].devices
    ensures d in dbs[j].devices
    ensures Doomed(dbs[j].devices[d]) ||
            (!Doomed(dbs[i].devices[d])
             && dbs[i].devices[d].version + Distance(dbs[i], d, height)
                <= dbs[j].devices[d].version + Distance(dbs[j], d, height))
    decreases j
  {
    hide Inv, Next, Distance, Doomed;
    if i < j {
      RunClimbs(dbs, requests, i, j - 1, d, height);
      RunKeepsInv(dbs, requests, j - 1);
      assert Next(dbs[j - 1], requests[j - 1], dbs[j - 1 + 1]);
      StepClimbs(dbs[j - 1], requests[j - 1], dbs[j], d, height);
    }
  }

  /** While the version stands still, so does the device, placed or not. */
  lemma {:induction false} RunFreezes(dbs: seq<Db>, requests: seq<Request>, k: nat, d: Id)
    requires Run(dbs, requests) && k < |dbs| && Inv(dbs[0]) && d in dbs[0].devices
    ensures d in dbs[k].devices && dbs[0].devices[d].version <= dbs[k].devices[d].version
    ensures dbs[k].devices[d].version == dbs[0].devices[d].version ==> (Placed(dbs[k], d) <==> Placed(dbs[0], d))
  {
    hide Inv, Next;
    if k > 0 {
      RunFreezes(dbs, requests, k - 1, d);
      RunKeepsInv(dbs, requests, k - 1);
      assert Next(dbs[k - 1], requests[k - 1], dbs[k - 1 + 1]);
      var change := DeviceStep(dbs[k - 1], requests[k - 1], dbs[k], d);
    }
  }

  // ----- a request whose version is too near to do harm -----

  /** The height that the request would be wrong to find; any, if it deletes the device. */
  function Written(dev: Device, r: Request): Option<int> {
    if r.UpdateDevice? then Some(UpdatedHeight(r.newHeight, dev)) else None
  }

  /** What the request has seen by the time its conditional update gets through. */
  lemma ThreeMoments(first: Db, middle: Db, last: Db, r: Request, fetched: Locals, read: Locals)
    requires Unlocked(r)
    requires Execute(first, r, FetchDevice, NOTHING_READ) == Some(fetched)
    requires Execute(middle, r, ReadPosition, fetched) == Some(read)
    requires Execute(last, r, CasDevice, read).Some?
    ensures LiveDevice(first.devices, r.id) && LiveDevice(last.devices, r.id)
    ensures last.devices[r.id].version == r.expected && read.device == Some(first.devices[r.id])
    ensures KeepsHeight(first.devices[r.id], r) || !Placed(middle, r.id)
  {
  }

  /** The update itself does harm only to a placed device, by deleting it or giving it another height. */
  lemma HarmNeedsPlace(last: Db, r: Request, read: Locals)
    requires Unlocked(r) && Inv(last) && LiveDevice(last.devices, r.id) && read.device.Some?
    requires Publish(last, r, read).Done? && !Inv(Publish(last, r, read).db)
    ensures Placed(last, r.id) && Written(read.device.value, r) != Some(last.devices[r.id].heightU)
  {
    hide Inv;
    var dev := last.devices[r.id];
    if !Placed(last, r.id) || Written(read.device.value, r) == Some(dev.heightU) {
      if r.DeleteDevice? {
        EditKeepsInv(last, r.id, dev.(deleted := true, version := dev.version + 1));
      } else {
        var height := UpdatedHeight(r.newHeight, read.device.value);
        EditKeepsInv(last, r.id, dev.(heightU := height, version := dev.version + 1));
      }
    }
  }

  lemma HarmlessIsSafe(dbs: seq<Db>, requests: seq<Request>, k: nat, r: Request)
    requires k < |dbs| && Inv(dbs[0]) && Unlocked(r) && Harmless(dbs[0], r)
    ensures !Breaks(dbs, requests, k, r)
  {
    hide Inv, Execute, Publish, Next;
    if Breaks(dbs, requests, k, r) {
      var end := |dbs| - 1;
      var fetched := Execute(dbs[0], r, FetchDevice, NOTHING_READ).value;
      RunKeepsInv(dbs, requests, end);
      var read := Execute(dbs[k], r, ReadPosition, fetched).value;
      ThreeMoments(dbs[0], dbs[k], dbs[end], r, fetched, read);
      HarmNeedsPlace(dbs[end], r, read);
      PlacedIsRunning(dbs[end], r.id);
      var avoided := Written(dbs[0].devices[r.id], r);
      RunFreezes(dbs, requests, k, r.id);
      if Placed(dbs[0], r.id) {
        PlacedIsRunning(dbs[0], r.id);
        RunClimbs(dbs, requests, if KeepsHeight(dbs[0].devices[r.id], r) then 0 else k, end, r.id, avoided);
      } else {
        RunClimbs(dbs, requests, 0, end, r.id, avoided);
      }
      assert false;
    }
  }

  // ----- a request whose version is far enough to do harm -----

  ghost predicate Leads(dbs: seq<Db>, requests: seq<Request>, db: Db, db': Db) {
    Run(dbs, requests) && dbs[0] == db && dbs[|dbs| - 1] == db'
  }

  ghost predicate Reaches(db: Db, db': Db) {
    exists dbs, requests :: Leads(dbs, requests, db, db')
  }

  lemma ReachesKeepsInv(db: Db, db': Db)
    requires Inv(db) && Reaches(db, db')
    ensures Inv(db')
  {
    hide Inv, Next;
    var dbs, requests :| Leads(dbs, requests, db, db');
    RunKeepsInv(dbs, requests, |dbs| - 1);
  }

  lemma ReachesSelf(db: Db)
    ensures Reaches(db, db)
  {
    assert Leads([db], [], db, db);
  }

  lemma ReachesOn(db: Db, db': Db, r: Request, db'': Db)
    requires Reaches(db, db') && !r.Submit? && Apply(db', r) == Done(db'')
    ensures Reaches(db, db'')
  {
    hide Apply;
    var dbs, requests :| Leads(dbs, requests, db, db');
    assert Leads(dbs + [db''], requests + [r], db, db'');
  }

  lemma RunsJoin(dbs: seq<Db>, requests: seq<Request>, dbs': seq<Db>, requests': seq<Request>)
    requires Run(dbs, requests) && Run(dbs', requests') && dbs[|dbs| - 1] == dbs'[0]
    ensures Run(dbs + dbs'[1..], requests + requests')
  {
    hide Next;
    var joined := dbs + dbs'[1..];
    forall i | 0 <= i < |requests + requests'|
      ensures Next(joined[i], (requests + requests')[i], joined[i + 1])
    {
      if i >= |requests| {
        var j := i - |requests|;
        assert Next(dbs'[j], requests'[j], dbs'[j + 1]);
      } else {
        assert Next(dbs[i], requests[i], dbs[i + 1]);
      }
    }
  }

  lemma ReachesFurther(db: Db, db': Db, db'': Db)
    requires Reaches(db, db') && Reaches(db', db'')
    ensures Reaches(db, db'')
  {
    hide Run;
    var dbs, requests :| Leads(dbs, requests, db, db');
    var dbs', requests' :| Leads(dbs', requests', db', db'');
    RunsJoin(dbs, requests, dbs', requests');
    assert Leads(dbs + dbs'[1..], requests + requests', db, db'') by {
      RunLength(dbs, requests);
      RunLength(dbs', requests');
    }
  }

  lemma RunLength(dbs: seq<Db>, requests: seq<Request>)
    requires Run(dbs, requests)
    ensures |dbs| == |requests| + 1
  {
  }

  lemma {:induction false} AboveAll(ids: set<Id>) returns (n: Id)
    ensures forall x :: x in ids ==> x < n
  {
    n := 0;
    if ids != {} {
      var x :| x in ids;
      n := AboveAll(ids - {x});
      n := if n <= x then x + 1 else n;
      assert forall y :: y in ids ==> y == x || y in ids - {x};
    }
  }

  /** The live connections of a device. */
  function Plugs(connections: map<Id, Connection>, d: Id): set<Id> {
    set c | c in connections && !connections[c].deleted && connections[c].device == d
  }

  lemma ConnectedSocket(db: Db, c: Id)
    requires Inv(db) && LiveConnection(db.connections, c)
    ensures LiveSocket(db.sockets, db.connections[c].socket)
    ensures LivePdu(db.pdus, db.sockets[db.connections[c].socket].pdu)
  {
    hide LayoutOk, RecordsOk, StatusOk, SocketsOk, PdusOk;
  }

  lemma Unplug(db: Db, d: Id, c: Id) returns (db': Db)
    requires Inv(db) && c in Plugs(db.connections, d)
    ensures Reaches(db, db') && db'.devices == db.devices && db'.positions == db.positions
    ensures Plugs(db'.connections, d) == Plugs(db.connections, d) - {c}
  {
    hide Inv, Apply, Reaches;
    var r := Disconnect(c, db.connections[c].version);
    ConnectedSocket(db, c);
    db' := DisconnectEffect(db, c, db.connections[c].socket);
    ApplyInParts(db, r);
    ReachesSelf(db);
    ReachesOn(db, db, r, db');
  }

  lemma {:induction false} UnplugAll(db: Db, d: Id) returns (db': Db)
    requires Inv(db)
    ensures Reaches(db, db') && db'.devices == db.devices && db'.positions == db.positions
    ensures !Powered(db'.connections, d)
    decreases |Plugs(db.connections, d)|
  {
    hide Inv, Reaches;
    if Plugs(db.connections, d) == {} {
      ReachesSelf(db);
      db' := db;
      assert forall c :: LiveConnection(db.connections, c) && db.connections[c].device == d ==>
                         c in Plugs(db.connections, d);
    } else {
      var c :| c in Plugs(db.connections, d);
      var db1 := Unplug(db, d, c);
      ReachesKeepsInv(db, db1);
      db' := UnplugAll(db1, d);
      ReachesFurther(db, db1, db');
    }
  }

  /** A device can be taken out, once its connections are ended. */
  lemma TakeOut(db: Db, d: Id) returns (db': Db)
    requires Inv(db) && LiveDevice(db.devices, d)
    requires db.devices[d].lifecycle != Scrapped && db.devices[d].lifecycle != OffRack
    ensures Reaches(db, db') && d in db'.devices && !Placed(db', d)
    ensures db'.devices[d] == db.devices[d].(version := db.devices[d].version + 1, lifecycle := OffRack)
  {
    hide Inv, Reaches, ActiveAt, ReleaseDevice;
    var free := UnplugAll(db, d);
    ReachesKeepsInv(db, free);
    OnePositionOf(free);
    db' := RemoveEffect(free, d, ActiveAt(free.positions, d));
    ReachesOn(db, free, Remove(d), db');
    TakenOutChange(free, d);
  }

  function AtVersion(db: Db, d: Id, version: nat): Db
    requires d in db.devices
  {
    db.(devices := db.devices[d := db.devices[d].(version := version)])
  }

  lemma EditBumps(db: Db, d: Id)
    requires LiveDevice(db.devices, d)
    ensures Apply(db, UpdateDevice(d, db.devices[d].version, None)) == Done(AtVersion(db, d, db.devices[d].version + 1))
  {
  }

  /** Harmless edits that take the device to any later version. */
  lemma {:induction false} CanReachVersion(db: Db, d: Id, version: nat)
    requires LiveDevice(db.devices, d) && db.devices[d].version <= version
    ensures Reaches(db, AtVersion(db, d, version))
    decreases version
  {
    hide Apply, Reaches;
    if db.devices[d].version == version {
      assert db.devices[d := db.devices[d]] == db.devices;
      ReachesSelf(db);
    } else {
      var before := AtVersion(db, d, version - 1);
      CanReachVersion(db, d, version - 1);
      EditBumps(before, d);
      assert AtVersion(before, d, version) == AtVersion(db, d, version);
      ReachesOn(db, before, UpdateDevice(d, version - 1, None), AtVersion(db, d, version));
    }
  }

  lemma Resize(db: Db, d: Id, height: int)
    requires LiveDevice(db.devices, d) && !Placed(db, d) && 0 < height
    ensures Reaches(db, SetHeight(db, d, height))
  {
    var r := UpdateDevice(d, db.devices[d].version, Some(height));
    assert Apply(db, r) == Done(SetHeight(db, d, height));
    hide Apply;
    ReachesSelf(db);
    ReachesOn(db, db, r, SetHeight(db, d, height));
  }

  /** Nothing stands in a rack that does not exist. */
  lemma NewRackIsFree(db: Db, d: Id, rack: Id, startU: int, endU: int)
    requires Inv(db) && rack !in db.racks
    ensures !Conflict(db.occupancies, d, rack, startU, endU)
  {
    forall o | LiveOccupancy(db.occupancies, o)
      ensures db.occupancies[o].rack != rack
    {
      assert Mirrors(db.positions, db.occupancies, o, db.occupancies[o].position);
    }
  }

  lemma UnplacedIsUnpowered(db: Db, d: Id)
    requires Inv(db) && !Placed(db, d)
    ensures !Powered(db.connections, d)
  {
    forall c | LiveConnection(db.connections, c)
      ensures db.connections[c].device != d
    {
      ConnectedDeviceIsPlaced(db, c);
    }
  }

  lemma ApplyInParts(db: Db, r: Request)
    ensures r.CreateRack? ==> Apply(db, r) == NewRack(db, r)
    ensures r.Place? ==> Apply(db, r) == PlaceDevice(db, r.placement)
    ensures r.Disconnect? ==> Apply(db, r) == DisconnectDevice(db, r.id, r.expected)
  {
    hide PlaceDevice, DisconnectDevice, NewRack;
  }

  /** The request to assign the device, or to move it if it counts as placed, to the bottom of the rack. */
  function Entry(dev: Device, d: Id, rack: Id, position: Id, occupancy: Id): Placement {
    Placement(d, if dev.lifecycle == Running || dev.lifecycle == Maintenance then Move else Assign, Some(rack), None, 1,
              Normal, position, occupancy)
  }

  lemma EntryFits(db: Db, d: Id, rack: Id, position: Id, occupancy: Id)
    requires LiveDevice(db.devices, d) && !Doomed(db.devices[d]) && !Stranded(db.devices[d])
    requires LiveRack(db.racks, rack) && db.racks[rack].status == Available
    requires 1 <= db.devices[d].heightU == db.racks[rack].uHeight
    requires !Powered(db.connections, d) && !Conflict(db.occupancies, d, rack, 1, db.devices[d].heightU)
    requires position !in db.positions && occupancy !in db.occupancies
    ensures PlaceDevice(db, Entry(db.devices[d], d, rack, position, occupancy)).Done?
  {
    hide Conflict, Powered, PlaceEffect;
  }

  /** A new rack of the device's height takes it, if it is assignable. */
  lemma NewRackTakes(db: Db, d: Id, rack: Id, position: Id, occupancy: Id) returns (built: Db)
    requires Inv(db) && LiveDevice(db.devices, d) && !Placed(db, d)
    requires !Doomed(db.devices[d]) && !Stranded(db.devices[d]) && 1 <= db.devices[d].heightU
    requires rack !in db.racks && position !in db.positions && occupancy !in db.occupancies
    ensures Apply(db, CreateRack(rack, Available, db.devices[d].heightU, 0, 0)) == Done(built)
    ensures built.devices == db.devices
    ensures PlaceDevice(built, Entry(db.devices[d], d, rack, position, occupancy)).Done?
  {
    hide Inv, Conflict, Powered, PlaceDevice, Apply, Placed, Entry, Doomed, Stranded;
    var create := CreateRack(rack, Available, db.devices[d].heightU, 0, 0);
    built := NewRack(db, create).db;
    ApplyInParts(db, create);
    NewRackIsFree(db, d, rack, 1, db.devices[d].heightU);
    UnplacedIsUnpowered(db, d);
    EntryFits(built, d, rack, position, occupancy);
  }

  lemma PutIn(db: Db, d: Id) returns (db': Db)
    requires Inv(db) && LiveDevice(db.devices, d) && !Placed(db, d)
    requires !Doomed(db.devices[d]) && !Stranded(db.devices[d]) && 1 <= db.devices[d].heightU
    ensures Reaches(db, db') && d in db'.devices && Placed(db', d)
    ensures db'.devices[d] == db.devices[d].(version := db.devices[d].version + 1, lifecycle := Running)
  {
    hide Inv, Reaches, PlaceDevice, Apply, Placed, Stranded, Doomed;
    var rack := AboveAll(db.racks.Keys);
    var position := AboveAll(db.positions.Keys);
    var occupancy := AboveAll(db.occupancies.Keys);
    var built := NewRackTakes(db, d, rack, position, occupancy);
    var q := Entry(db.devices[d], d, rack, position, occupancy);
    db' := PlaceDevice(built, q).db;
    PlacedChange(built, q);
    ApplyInParts(built, Place(q));
    ReachesSelf(db);
    ReachesOn(db, db, CreateRack(rack, Available, db.devices[d].heightU, 0, 0), built);
    ReachesOn(db, built, Place(q), db');
  }

  lemma DeletingPlacedBreaks(db: Db, d: Id)
    requires d in db.devices && Placed(db, d)
    ensures !Inv(DropDevice(db, d))
  {
    assert Holds(db.positions, Active(db.positions, d).value, d);
  }

  lemma ResizingPlacedBreaks(db: Db, d: Id, height: int)
    requires Inv(db) && d in db.devices && Placed(db, d) && height != db.devices[d].heightU
    ensures !Inv(SetHeight(db, d, height))
  {
    var p := Active(db.positions, d).value;
    assert Holds(db.positions, p, d) && LivePosition(db.positions, p);
    hide OnePosition, MirrorOk, DisjointOk, PowerOk, RecordsOk;
  }

  /** The request gets through at the three moments and does what it does to the last tables. */
  lemma GetsThrough(first: Db, middle: Db, last: Db, r: Request) returns (fetched: Locals, read: Locals)
    requires Unlocked(r) && LiveDevice(first.devices, r.id) && !Placed(middle, r.id)
    requires LiveDevice(last.devices, r.id) && last.devices[r.id].version == r.expected
    ensures Execute(first, r, FetchDevice, NOTHING_READ) == Some(fetched)
    ensures Execute(middle, r, ReadPosition, fetched) == Some(read)
    ensures Execute(last, r, CasDevice, read).Some?
    ensures Publish(last, r, read) ==
            Done(if r.DeleteDevice? then DropDevice(last, r.id)
                 else SetHeight(last, r.id, UpdatedHeight(r.newHeight, first.devices[r.id])))
  {
    fetched := Execute(first, r, FetchDevice, NOTHING_READ).value;
    read := Execute(middle, r, ReadPosition, fetched).value;
  }

  /** Tables on the way from the first to the last at which the request does harm. */
  lemma HarmDone(first: Db, middle: Db, last: Db, r: Request) returns (dbs: seq<Db>, requests: seq<Request>, k: nat)
    requires Unlocked(r) && Reaches(first, middle) && Reaches(middle, last) && Inv(last)
    requires LiveDevice(first.devices, r.id) && !Placed(middle, r.id)
    requires LiveDevice(last.devices, r.id) && last.devices[r.id].version == r.expected && Placed(last, r.id)
    requires Written(first.devices[r.id], r) != Some(last.devices[r.id].heightU)
    ensures k < |dbs| && dbs[0] == first && Breaks(dbs, requests, k, r)
  {
    hide Run, Inv, Placed, Execute, Publish;
    var before, sooner :| Leads(before, sooner, first, middle);
    var after, later :| Leads(after, later, middle, last);
    RunsJoin(before, sooner, after, later);
    RunLength(before, sooner);
    RunLength(after, later);
    dbs, requests, k := before + after[1..], sooner + later, |before| - 1;
    var fetched, read := GetsThrough(first, middle, last, r);
    if r.DeleteDevice? {
      DeletingPlacedBreaks(last, r.id);
    } else {
      ResizingPlacedBreaks(last, r.id, UpdatedHeight(r.newHeight, first.devices[r.id]));
    }
  }

  /** Taking the device out of its rack, or of a lifecycle from which it cannot be placed. */
  lemma MadeAssignable(db: Db, d: Id) returns (db': Db)
    requires Inv(db) && d in db.devices && !Doomed(db.devices[d])
    ensures Reaches(db, db') && d in db'.devices && !Placed(db', d) && !Stranded(db'.devices[d])
    ensures db'.devices[d] == db.devices[d].(
              version := db.devices[d].version + if Placed(db, d) || Stranded(db.devices[d]) then 1 else 0,
              lifecycle := db'.devices[d].lifecycle)
    ensures !Doomed(db'.devices[d])
  {
    hide Inv, Reaches;
    if Placed(db, d) {
      PlacedIsRunning(db, d);
      db' := TakeOut(db, d);
    } else if Stranded(db.devices[d]) {
      db' := TakeOut(db, d);
    } else {
      db' := db;
      ReachesSelf(db);
    }
  }

  /** Giving the device a height, or another one, if it needs it. */
  lemma MadeFit(db: Db, d: Id, height: Option<int>) returns (db': Db)
    requires LiveDevice(db.devices, d) && !Placed(db, d)
    ensures Reaches(db, db') && d in db'.devices && !Placed(db', d) && Avoids(db'.devices[d], height)
    ensures db'.devices[d] == db.devices[d].(
              version := db.devices[d].version + if Avoids(db.devices[d], height) then 0 else 1,
              heightU := db'.devices[d].heightU)
  {
    hide Reaches;
    if Avoids(db.devices[d], height) {
      db' := db;
      ReachesSelf(db);
    } else {
      var other := if height == Some(1) then 2 else 1;
      db' := SetHeight(db, d, other);
      Resize(db, d, other);
    }
  }

  /** With a version far enough ahead, other requests in between can lead the device to where this one does harm. */
  lemma GuessedVersionBreaks(db: Db, r: Request) returns (dbs: seq<Db>, requests: seq<Request>, k: nat)
    requires Inv(db) && Unlocked(r) && !Harmless(db, r)
    ensures k < |dbs| && dbs[0] == db && Breaks(dbs, requests, k, r)
  {
    hide Inv, Reaches, Breaks, Next;
    var avoided := Written(db.devices[r.id], r);
    if Placed(db, r.id) {
      PlacedIsRunning(db, r.id);
    }
    var middle := MadeAssignable(db, r.id);
    var fit := MadeFit(middle, r.id, avoided);
    var aged := AtVersion(fit, r.id, r.expected - 1);
    CanReachVersion(fit, r.id, r.expected - 1);
    ReachesFurther(middle, fit, aged);
    ReachesKeepsInv(db, middle);
    ReachesKeepsInv(middle, aged);
    var last := PutIn(aged, r.id);
    ReachesFurther(middle, aged, last);
    ReachesKeepsInv(middle, last);
    dbs, requests, k := HarmDone(db, middle, last, r);
  }

  /**
   * Exactly when check-then-compare without locks is safe, for every edit and deletion and every device: no
   * commits between the read of the device, the read of its position and the conditional update let the
   * request break the invariant if and only if it is harmless.
   */
  lemma UnlockedIsSafeIffHarmless(db: Db, r: Request)
    requires Inv(db) && Unlocked(r)
    ensures (forall dbs, requests, k: nat | k < |dbs| && dbs[0] == db :: !Breaks(dbs, requests, k, r))
            <==> Harmless(db, r)
  {
    hide Inv, Breaks, Harmless;
    if Harmless(db, r) {
      forall dbs, requests, k: nat | k < |dbs| && dbs[0] == db
        ensures !Breaks(dbs, requests, k, r)
      {
        HarmlessIsSafe(dbs, requests, k, r);
      }
    } else {
      var dbs, requests, k := GuessedVersionBreaks(db, r);
    }
  }

  /** In particular a version that the device has already reached is safe. */
  lemma SeenVersionIsSafe(dbs: seq<Db>, requests: seq<Request>, k: nat, r: Request)
    requires k < |dbs| && Inv(dbs[0]) && Unlocked(r)
    requires r.id in dbs[0].devices && r.expected <= dbs[0].devices[r.id].version
    ensures !Breaks(dbs, requests, k, r)
  {
    hide Inv, Breaks;
    HarmlessIsSafe(dbs, requests, k, r);
  }

  // ----- forced archival of a PDU -----

  /** The connections that are live before and no longer live after. */
  function Ended(before: Db, after: Db): set<Id> {
    set c | c in before.connections && LiveConnection(before.connections, c) && !LiveConnection(after.connections, c)
  }

  /** Archiving ends exactly the connections the operator confirmed, and leaves none on the PDU. */
  lemma ArchiveEndsConfirmed(db: Db, r: Request)
    requires Inv(db) && r.ForceArchive? && ArchivePdu(db, r).Done?
    ensures |Ended(db, ArchivePdu(db, r).db)| == r.confirmed
    ensures !LivePdu(ArchivePdu(db, r).db.pdus, r.id)
    ensures forall c :: LiveConnection(ArchivePdu(db, r).db.connections, c) ==>
                        LiveConnection(db.connections, c) && db.sockets[db.connections[c].socket].pdu != r.id
  {
    hide LayoutOk, RecordsOk, StatusOk;
    assert Ended(db, ArchivePdu(db, r).db) == Impact(db.sockets, db.connections, r.id);
  }
}
