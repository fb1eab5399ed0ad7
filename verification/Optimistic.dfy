// Optimistic concurrency over whole executions: of the requests that send one version of a row,
// at most one ever commits. And every placement fits its rack at the moment it commits.

module Optimistic {
  import opened Wrappers
  import opened Inventory
  import opened Transactions
  import opened InventoryProofs
  import opened Interleaving
  import opened Executions
  import opened Outcomes

  datatype Row = DeviceRow(id: Id) | RackRow(id: Id) | PduRow(id: Id) | SocketRow(id: Id) | ConnectionRow(id: Id)

  /** The row whose version the request names. */
  function Target(r: Request): Option<Row> {
    match r
    case UpdateDevice(id, _, _) => Some(DeviceRow(id))
    case DeleteDevice(id, _) => Some(DeviceRow(id))
    case UpdateRack(id, _, _, _) => Some(RackRow(id))
    case DeleteRack(id, _) => Some(RackRow(id))
    case DeletePdu(id, _) => Some(PduRow(id))
    case ForceArchive(id, _, _, _) => Some(PduRow(id))
    case DeleteSocket(id, _) => Some(SocketRow(id))
    case Disconnect(id, _) => Some(ConnectionRow(id))
    case _ => None
  }

  function VersionIn(db: Db, row: Row): Option<nat> {
    match row
    case DeviceRow(id) => if id in db.devices then Some(db.devices[id].version) else None
    case RackRow(id) => if id in db.racks then Some(db.racks[id].version) else None
    case PduRow(id) => if id in db.pdus then Some(db.pdus[id].version) else None
    case SocketRow(id) => if id in db.sockets then Some(db.sockets[id].version) else None
    case ConnectionRow(id) => if id in db.connections then Some(db.connections[id].version) else None
  }

  predicate DeletedIn(db: Db, row: Row) {
    match row
    case DeviceRow(id) => id in db.devices && db.devices[id].deleted
    case RackRow(id) => id in db.racks && db.racks[id].deleted
    case PduRow(id) => id in db.pdus && db.pdus[id].deleted
    case SocketRow(id) => id in db.sockets && db.sockets[id].deleted
    case ConnectionRow(id) => id in db.connections && db.connections[id].deleted
  }

  /** The row is still there, at no earlier version, and not live again. */
  ghost predicate Advances(db: Db, db': Db, row: Row) {
    && (VersionIn(db, row).Some? ==> VersionIn(db', row).Some? && VersionIn(db, row).value <= VersionIn(db', row).value)
    && (DeletedIn(db, row) ==> DeletedIn(db', row))
  }

  lemma PlacementAdvances(db: Db, q: Placement, row: Row)
    requires PlaceDevice(db, q).Done?
    ensures Advances(db, PlaceDevice(db, q).db, row)
  {
    hide CheckLifecycle, CheckRack, ActiveAt, Powered, Conflict;
  }

  lemma RackOrDeviceAdvances(db: Db, r: Request, row: Row)
    requires Apply(db, r).Done?
    requires r.CreateDevice? || r.UpdateDevice? || r.DeleteDevice? || r.Remove?
             || r.CreateRack? || r.UpdateRack? || r.DeleteRack?
    ensures Advances(db, Apply(db, r).db, row)
  {
    hide ActiveAt, Active, Powered, HasPositions, HasPdus;
  }

  lemma DroppedRowsAdvance(db: Db, p: Id)
    ensures forall s | s in db.sockets ::
              && s in DeleteSockets(db.sockets, p)
              && db.sockets[s].version <= DeleteSockets(db.sockets, p)[s].version
              && (db.sockets[s].deleted ==> DeleteSockets(db.sockets, p)[s].deleted)
    ensures forall c | c in db.connections ::
              && c in DropConnections(db.sockets, db.connections, p)
              && db.connections[c].version <= DropConnections(db.sockets, db.connections, p)[c].version
              && (db.connections[c].deleted ==> DropConnections(db.sockets, db.connections, p)[c].deleted)
  {
  }

  lemma PduAdvances(db: Db, r: Request, row: Row)
    requires Apply(db, r).Done? && (r.CreatePdu? || r.UpdatePdu? || r.DeletePdu? || r.ForceArchive?)
    ensures Advances(db, Apply(db, r).db, row)
  {
    hide Impact, DeleteSockets, DropConnections;
    if r.DeletePdu? || r.ForceArchive? {
      DroppedRowsAdvance(db, r.id);
    }
  }

  lemma SocketAdvances(db: Db, r: Request, row: Row)
    requires Apply(db, r).Done?
    requires r.CreateSocket? || r.UpdateSocket? || r.DeleteSocket? || r.Connect? || r.Disconnect?
    ensures Advances(db, Apply(db, r).db, row)
  {
    hide ActiveAt, SocketInUse, RoleTaken, NumberTaken;
  }

  lemma ApprovalAdvances(db: Db, r: Request, row: Row)
    requires Apply(db, r).Done? && (r.Submit? || r.Approve? || r.Reject?)
    ensures Advances(db, Apply(db, r).db, row)
  {
    hide ActiveAt, PlaceDevice;
    if r.Approve? {
      var q := ApprovedPlacement(db.approvals[r.id], r.position, r.occupancy);
      PlacementAdvances(DecideEffect(db, r.id, Approved), q, row);
    }
  }

  lemma ApplyAdvances(db: Db, r: Request, row: Row)
    requires Apply(db, r).Done?
    ensures Advances(db, Apply(db, r).db, row)
  {
    if r.Place? {
      PlacementAdvances(db, r.placement, row);
    } else {
      hide Apply, Advances;
      if r.Submit? || r.Approve? || r.Reject? {
        ApprovalAdvances(db, r, row);
      } else if r.CreatePdu? || r.UpdatePdu? || r.DeletePdu? || r.ForceArchive? {
        PduAdvances(db, r, row);
      } else if r.CreateSocket? || r.UpdateSocket? || r.DeleteSocket? || r.Connect? || r.Disconnect? {
        SocketAdvances(db, r, row);
      } else {
        RackOrDeviceAdvances(db, r, row);
      }
    }
  }

  /** A request that names a version succeeds on that version only, and takes the row past it. */
  lemma ApplyTakesVersion(db: Db, r: Request)
    requires Apply(db, r).Done? && Target(r).Some?
    ensures VersionIn(db, Target(r).value) == Some(r.expected)
    ensures VersionIn(Apply(db, r).db, Target(r).value) == Some(r.expected + 1)
  {
    hide ActiveAt, Powered, Conflict, Impact, SocketInUse, RoleTaken, NumberTaken, PlaceDevice;
  }

  lemma {:induction false} RowsAdvance(states: seq<System>, actions: seq<Action>, i: nat, j: nat, row: Row)
    requires Execution(states, actions) && i <= j < |states|
    ensures Advances(states[i].db, states[j].db, row)
    decreases j
  {
    hide Step, Apply;
    if i < j {
      RowsAdvance(states, actions, i, j - 1, row);
      StepIsSerial(states, actions, j - 1);
      var r := Committed(states, actions, j - 1);
      if r.Some? && !r.value.Submit? {
        ApplyAdvances(states[j - 1].db, r.value, row);
      }
    }
  }

  /** No update is lost: of two commits that name the same row, the later one was sent a later version. */
  lemma NoLostUpdate(states: seq<System>, actions: seq<Action>, i: nat, j: nat, r: Request, r': Request)
    requires Execution(states, actions) && i < j < |actions|
    requires Committed(states, actions, i) == Some(r) && Committed(states, actions, j) == Some(r')
    requires Target(r).Some? && Target(r') == Target(r)
    ensures r.expected < r'.expected
  {
    hide Step, Apply;
    StepIsSerial(states, actions, i);
    StepIsSerial(states, actions, j);
    ApplyTakesVersion(states[i].db, r);
    ApplyTakesVersion(states[j].db, r');
    RowsAdvance(states, actions, i + 1, j, Target(r).value);
  }

  // ----- deletions are for good -----

  predicate Deletes(r: Request) {
    r.DeleteDevice? || r.DeleteRack? || r.DeletePdu? || r.ForceArchive? || r.DeleteSocket? || r.Disconnect?
  }

  lemma DeletionDeletes(db: Db, r: Request, db': Db)
    requires Deletes(r) && Leaves(db, r, db')
    ensures DeletedIn(db', Target(r).value)
  {
  }

  /** Once a deletion has committed, its row is deleted at every later moment. */
  lemma DeletedForGood(states: seq<System>, actions: seq<Action>, i: nat, j: nat, r: Request)
    requires Execution(states, actions) && i < |actions| && i < j < |states|
    requires Committed(states, actions, i) == Some(r) && Deletes(r)
    ensures DeletedIn(states[j].db, Target(r).value)
  {
    hide Execution, Leaves, Succeeds;
    CommitLeaves(states, actions, i, r);
    DeletionDeletes(states[i].db, r, states[i + 1].db);
    RowsAdvance(states, actions, i + 1, j, Target(r).value);
  }

  // ----- placements fit -----

  /** The device sits within the rack's height, in the room and data centre of the rack, and the rack takes devices. */
  ghost predicate Fits(db: Db, d: Id) {
    var at := ActiveAt(db.positions, d);
    && at.Some? && LiveRack(db.racks, at.value.rack)
    && var rack := db.racks[at.value.rack];
       && 1 <= at.value.startU <= at.value.endU <= rack.uHeight
       && rack.status != Disabled && rack.status != Planning
       && at.value.room == rack.room && at.value.dataCenter == rack.dataCenter
  }

  /** When a placement commits, the device fits the rack as it is at that moment. */
  lemma PlacementFits(states: seq<System>, actions: seq<Action>, i: nat, q: Placement)
    requires Execution(states, actions) && i < |actions| && Committed(states, actions, i) == Some(Place(q))
    ensures Fits(states[i + 1].db, q.device)
    ensures ActiveAt(states[i + 1].db.positions, q.device).value.rack == q.DesiredRack().value
    ensures ActiveAt(states[i + 1].db.positions, q.device).value.startU == q.startU
  {
    hide Step, Inv;
    StepIsSerial(states, actions, i);
    TablesInv(states, actions, i + 1);
    OnePositionOf(states[i + 1].db);
    PlacedAt(states[i].db, q);
    FittingPlace(states[i].db, q);
  }

  lemma FittingPlace(db: Db, q: Placement)
    requires PlaceDevice(db, q).Done? && OnePosition(PlaceDevice(db, q).db.positions)
    ensures q.DesiredRack().Some?
    ensures Fits(PlaceDevice(db, q).db, q.device)
    ensures ActiveAt(PlaceDevice(db, q).db.positions, q.device).value.rack == q.DesiredRack().value
    ensures ActiveAt(PlaceDevice(db, q).db.positions, q.device).value.startU == q.startU
  {
    var rack := q.DesiredRack().value;
    var at := TargetSnapshot(db.devices[q.device], rack, db.racks[rack], q.startU, q.orientation);
    PlacedAt(db, q);
    SitsAtActive(PlaceDevice(db, q).db.positions, q.device, Some(at));
    hide SitsAt, ActiveAt, Powered, Conflict, CheckLifecycle, OnePosition;
  }
}
