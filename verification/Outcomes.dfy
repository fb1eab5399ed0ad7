// When each inventory request succeeds and what it leaves behind, read off the tables alone: an account of the
// requests independent of how Transactions.dfy computes them, and the proof that the two agree.

module Outcomes {
  import opened Wrappers
  import opened Inventory
  import opened Transactions
  import opened InventoryProofs

  // ----- what the tables show -----

  /** At most the row `id` differs. */
  ghost predicate OnlyRow<V>(before: map<Id, V>, after: map<Id, V>, id: Id) {
    forall x :: x != id ==> (x in after <==> x in before) && (x in before && x in after ==> after[x] == before[x])
  }

  ghost predicate Seated(db: Db, d: Id) {
    exists p :: p in db.positions && !db.positions[p].deleted && db.positions[p].device == d
  }

  ghost predicate Plugged(db: Db, d: Id) {
    exists c :: c in db.connections && !db.connections[c].deleted && db.connections[c].device == d
  }

  /** A device other than `d` stands at `u` in the rack. */
  ghost predicate StandsAt(db: Db, d: Id, rack: Id, u: int) {
    exists p :: p in db.positions && !db.positions[p].deleted && db.positions[p].device != d
                && db.positions[p].at.rack == rack && db.positions[p].at.startU <= u <= db.positions[p].at.endU
  }

  /** The live connections through the PDU's sockets. */
  ghost function Through(db: Db, p: Id): set<Id> {
    set c | c in db.connections && !db.connections[c].deleted && db.connections[c].socket in db.sockets
            && db.sockets[db.connections[c].socket].pdu == p
  }

  ghost predicate NumberUsed(db: Db, p: Id, number: int, besides: Id) {
    exists s :: s in db.sockets && s != besides && !db.sockets[s].deleted && db.sockets[s].pdu == p
                && db.sockets[s].number == number
  }

  /** The device sits in the rack of the PDU that the socket belongs to. */
  ghost predicate SameRack(db: Db, d: Id, s: Id) {
    exists p :: p in db.positions && !db.positions[p].deleted && db.positions[p].device == d
                && s in db.sockets && db.sockets[s].pdu in db.pdus
                && db.positions[p].at.rack == db.pdus[db.sockets[s].pdu].rack
  }

  predicate Names(q: Placement, rack: Id) {
    q.target == Some(rack) || (q.target == None && q.alias == Some(rack))
  }

  // ----- when a request succeeds -----

  /** All that placing asks for but the U's being free. */
  ghost predicate Eligible(db: Db, q: Placement, rack: Id) {
    && q.device in db.devices && !db.devices[q.device].deleted && Names(q, rack)
    && rack in db.racks && !db.racks[rack].deleted && db.racks[rack].status !in {Disabled, Planning}
    && (if q.operation == Move
        then db.devices[q.device].lifecycle in {Running, Maintenance} && !Plugged(db, q.device)
        else db.devices[q.device].lifecycle in {WaitingRack, OffRack})
    && 1 <= q.startU && 1 <= db.devices[q.device].heightU
    && q.startU + db.devices[q.device].heightU - 1 <= db.racks[rack].uHeight
    && q.orientation in {Unspecified, Normal, Reverse}
  }

  ghost predicate MayPlace(db: Db, q: Placement) {
    && (exists rack ::
          && Eligible(db, q, rack)
          && forall u :: q.startU <= u < q.startU + db.devices[q.device].heightU ==> !StandsAt(db, q.device, rack, u))
    && q.position !in db.positions && q.occupancy !in db.occupancies
  }

  ghost predicate MayConnect(db: Db, id: Id, s: Id, d: Id, role: Role) {
    && s in db.sockets && !db.sockets[s].deleted && d in db.devices && !db.devices[d].deleted
    && SameRack(db, d, s) && id !in db.connections
    && role in {DefaultRole, Primary, Standby}
    && forall c :: c in db.connections && !db.connections[c].deleted ==>
         && db.connections[c].socket != s
         && !(db.connections[c].device == d
              && db.connections[c].role == if role == DefaultRole then Primary else role)
  }

  ghost predicate MayDecide(db: Db, id: Id, decision: nat, actor: bool) {
    id in db.approvals && db.approvals[id].status == Pending && actor && decision in {0, db.approvals[id].version}
  }

  /** What an approval of the record would do. */
  function Granted(a: Approval, position: Id, occupancy: Id): Placement {
    Placement(a.device, if a.operation == Move then Move else Assign, Some(a.targetRack), None, a.targetStartU,
              a.targetOrientation, position, occupancy)
  }

  ghost predicate Succeeds(db: Db, r: Request) {
    match r
    case CreateDevice(id, height, _, _) => id !in db.devices && (height.Some? ==> 1 <= height.value)
    case UpdateDevice(d, expected, height) =>
      && d in db.devices && !db.devices[d].deleted && db.devices[d].version == expected
      && (height.Some? && 0 < height.value && Seated(db, d) ==> height.value == db.devices[d].heightU)
    case DeleteDevice(d, expected) =>
      d in db.devices && !db.devices[d].deleted && db.devices[d].version == expected && !Seated(db, d)
    case Place(q) => MayPlace(db, q)
    case Remove(d) =>
      && d in db.devices && !db.devices[d].deleted && db.devices[d].lifecycle !in {Scrapped, OffRack}
      && !Plugged(db, d)
    case CreateRack(id, _, _, _, _) => id !in db.racks
    case UpdateRack(id, expected, _, _) => id in db.racks && !db.racks[id].deleted && db.racks[id].version == expected
    case DeleteRack(id, expected) =>
      && id in db.racks && !db.racks[id].deleted && db.racks[id].version == expected
      && (forall p :: p in db.positions && !db.positions[p].deleted ==> db.positions[p].at.rack != id)
      && (forall p :: p in db.pdus && !db.pdus[p].deleted ==> db.pdus[p].rack != id)
    case CreatePdu(p, rack) => p !in db.pdus && rack in db.racks && !db.racks[rack].deleted
    case UpdatePdu(p) => p in db.pdus && !db.pdus[p].deleted
    case DeletePdu(p, expected) =>
      p in db.pdus && !db.pdus[p].deleted && db.pdus[p].version == expected && Through(db, p) == {}
    case ForceArchive(p, expected, reasonGiven, confirmed) =>
      && p in db.pdus && !db.pdus[p].deleted && db.pdus[p].version == expected
      && reasonGiven && confirmed == |Through(db, p)|
    case CreateSocket(s, p, number) =>
      s !in db.sockets && p in db.pdus && !db.pdus[p].deleted && !NumberUsed(db, p, number, s)
    case UpdateSocket(s, number) =>
      s in db.sockets && !db.sockets[s].deleted && !NumberUsed(db, db.sockets[s].pdu, number, s)
    case DeleteSocket(s, expected) =>
      && s in db.sockets && !db.sockets[s].deleted && db.sockets[s].version == expected
      && forall c :: c in db.connections && !db.connections[c].deleted ==> db.connections[c].socket != s
    case Connect(id, s, d, role) => MayConnect(db, id, s, d, role)
    case Disconnect(c, expected) =>
      c in db.connections && !db.connections[c].deleted && db.connections[c].version == expected
    case Submit(id, q) =>
      && id !in db.approvals && q.device in db.devices && !db.devices[q.device].deleted
      && exists rack :: rack in db.racks && Names(q, rack)
    case Approve(id, decision, actor, position, occupancy) =>
      && MayDecide(db, id, decision, actor)
      && db.approvals[id].device in db.devices
      && db.devices[db.approvals[id].device].version == db.approvals[id].requestedVersion
      && MayPlace(db, Granted(db.approvals[id], position, occupancy))
    case Reject(id, decision, actor) => MayDecide(db, id, decision, actor)
  }

  // ----- what a request leaves -----

  /** Of the device's positions and occupancies the live ones have ended; no other row has changed. */
  ghost predicate Vacated(db: Db, db': Db, d: Id) {
    && (forall p :: p in db.positions ==>
          && p in db'.positions
          && db'.positions[p] ==
               if !db.positions[p].deleted && db.positions[p].device == d
               then db.positions[p].(deleted := true, version := db.positions[p].version + 1) else db.positions[p])
    && (forall o :: o in db.occupancies ==>
          && o in db'.occupancies
          && db'.occupancies[o] ==
               if !db.occupancies[o].deleted && db.occupancies[o].device == d
               then db.occupancies[o].(deleted := true, version := db.occupancies[o].version + 1)
               else db.occupancies[o])
  }

  /** The device has a new lifecycle and version, and one more history entry says from where it went where. */
  ghost predicate Went(db: Db, db': Db, d: Id, lifecycle: Lifecycle, operation: Operation, to: Option<Snapshot>) {
    && d in db.devices && OnlyRow(db.devices, db'.devices, d) && d in db'.devices
    && db'.devices[d] == db.devices[d].(lifecycle := lifecycle, version := db.devices[d].version + 1)
    && exists from ::
         SitsAt(db.positions, d, from) && db'.history == db.history + [HistoryEntry(d, operation, from, to)]
  }

  /** The device stands where it was asked to, in the room and data centre of its rack. */
  ghost predicate Moved(db: Db, db': Db, q: Placement, rack: Id) {
    && q.device in db.devices && rack in db.racks
    && var height := db.devices[q.device].heightU;
       var at := Snapshot(rack, db.racks[rack].room, db.racks[rack].dataCenter, q.startU, height,
                          q.startU + height - 1, if q.orientation == Unspecified then Normal else q.orientation);
       && db' == db.(devices := db'.devices, positions := db'.positions, occupancies := db'.occupancies,
                     history := db'.history)
       && Vacated(db, db', q.device)
       && db'.positions.Keys == db.positions.Keys + {q.position}
       && db'.occupancies.Keys == db.occupancies.Keys + {q.occupancy}
       && db'.positions[q.position] == Position(q.device, at, 1, false)
       && db'.occupancies[q.occupancy] ==
            Occupancy(q.position, q.device, rack, q.startU, q.startU + height - 1, 1, false)
       && Went(db, db', q.device, Running, q.operation, Some(at))
  }

  ghost predicate Decided(db: Db, db': Db, id: Id, status: ApprovalStatus) {
    && id in db.approvals && id in db'.approvals && OnlyRow(db.approvals, db'.approvals, id)
    && db'.approvals[id] == db.approvals[id].(status := status, version := db.approvals[id].version + 1)
  }

  /** The PDU and its live sockets are deleted. */
  ghost predicate Retired(db: Db, db': Db, p: Id) {
    && p in db.pdus && p in db'.pdus && OnlyRow(db.pdus, db'.pdus, p)
    && db'.pdus[p] == db.pdus[p].(deleted := true, version := db.pdus[p].version + 1)
    && db'.sockets.Keys == db.sockets.Keys
    && forall s :: s in db.sockets && s in db'.sockets ==>
         db'.sockets[s] ==
           if !db.sockets[s].deleted && db.sockets[s].pdu == p
           then db.sockets[s].(deleted := true, version := db.sockets[s].version + 1) else db.sockets[s]
  }

  /** The connections are ended and no others are touched. */
  ghost predicate Cut(db: Db, db': Db, ended: set<Id>) {
    && db'.connections.Keys == db.connections.Keys
    && forall c :: c in db.connections && c in db'.connections ==>
         db'.connections[c] ==
           if c in ended then db.connections[c].(deleted := true, version := db.connections[c].version + 1)
           else db.connections[c]
  }

  ghost predicate DeviceLeft(db: Db, db': Db, d: Id, dev: Device) {
    db' == db.(devices := db'.devices) && OnlyRow(db.devices, db'.devices, d) && d in db'.devices
    && db'.devices[d] == dev
  }

  ghost predicate RackLeft(db: Db, db': Db, r: Id, rack: Rack) {
    db' == db.(racks := db'.racks) && OnlyRow(db.racks, db'.racks, r) && r in db'.racks && db'.racks[r] == rack
  }

  ghost predicate PduLeft(db: Db, db': Db, p: Id, pdu: Pdu) {
    db' == db.(pdus := db'.pdus) && OnlyRow(db.pdus, db'.pdus, p) && p in db'.pdus && db'.pdus[p] == pdu
  }

  ghost predicate SocketLeft(db: Db, db': Db, s: Id, socket: Socket) {
    db' == db.(sockets := db'.sockets) && OnlyRow(db.sockets, db'.sockets, s) && s in db'.sockets
    && db'.sockets[s] == socket
  }

  /** One connection and the status of its socket have changed. */
  ghost predicate WireLeft(db: Db, db': Db, c: Id, wire: Connection, status: SocketStatus) {
    && db' == db.(connections := db'.connections, sockets := db'.sockets)
    && OnlyRow(db.connections, db'.connections, c) && c in db'.connections && db'.connections[c] == wire
    && wire.socket in db.sockets && wire.socket in db'.sockets && OnlyRow(db.sockets, db'.sockets, wire.socket)
    && db'.sockets[wire.socket] == db.sockets[wire.socket].(status := status)
  }

  ghost predicate RecordLeft(db: Db, db': Db, id: Id, q: Placement) {
    && db' == db.(approvals := db'.approvals) && OnlyRow(db.approvals, db'.approvals, id) && id in db'.approvals
    && q.device in db.devices
    && var a := db'.approvals[id];
       && Names(q, a.targetRack) && SitsAt(db.positions, q.device, a.source)
       && a == Approval(q.device, q.operation, Pending, db.devices[q.device].version, a.source, a.targetRack, q.startU,
                        db.devices[q.device].heightU,
                        if q.orientation == Unspecified then Normal else q.orientation, 1)
  }

  ghost predicate Leaves(db: Db, r: Request, db': Db) {
    match r
    case CreateDevice(id, height, typeHeight, lifecycle) =>
      DeviceLeft(db, db', id, Device(match lifecycle case Some(given) => given case None => WaitingRack,
                                     match height case Some(given) => given case None => typeHeight, 1, false))
    case UpdateDevice(d, _, height) =>
      && d in db.devices
      && var dev := db.devices[d];
         var newHeight := if height.Some? && 0 < height.value then height.value else dev.heightU;
         DeviceLeft(db, db', d, Device(dev.lifecycle, newHeight, dev.version + 1, false))
    case DeleteDevice(d, _) =>
      && d in db.devices
      && var dev := db.devices[d]; DeviceLeft(db, db', d, Device(dev.lifecycle, dev.heightU, dev.version + 1, true))
    case Place(q) => exists rack :: Names(q, rack) && Moved(db, db', q, rack)
    case Remove(d) =>
      && db' == db.(devices := db'.devices, positions := db'.positions, occupancies := db'.occupancies,
                    history := db'.history)
      && Vacated(db, db', d)
      && db'.positions.Keys == db.positions.Keys && db'.occupancies.Keys == db.occupancies.Keys
      && Went(db, db', d, OffRack, Decommission, None)
    case CreateRack(id, status, uHeight, room, dataCenter) =>
      RackLeft(db, db', id, Rack(status, uHeight, room, dataCenter, 1, false))
    case UpdateRack(id, _, status, uHeight) =>
      && id in db.racks
      && var rack := db.racks[id];
         RackLeft(db, db', id, Rack(status, uHeight, rack.room, rack.dataCenter, rack.version + 1, false))
    case DeleteRack(id, _) =>
      && id in db.racks
      && var rack := db.racks[id];
         RackLeft(db, db', id, Rack(rack.status, rack.uHeight, rack.room, rack.dataCenter, rack.version + 1, true))
    case CreatePdu(p, rack) => PduLeft(db, db', p, Pdu(rack, 1, false))
    case UpdatePdu(p) => p in db.pdus && PduLeft(db, db', p, Pdu(db.pdus[p].rack, db.pdus[p].version + 1, false))
    case DeletePdu(p, _) => db' == db.(pdus := db'.pdus, sockets := db'.sockets) && Retired(db, db', p)
    case ForceArchive(p, _, _, _) =>
      && db' == db.(pdus := db'.pdus, sockets := db'.sockets, connections := db'.connections)
      && Retired(db, db', p) && Cut(db, db', Through(db, p))
    case CreateSocket(s, p, number) => SocketLeft(db, db', s, Socket(p, number, SocketAvailable, 1, false))
    case UpdateSocket(s, number) =>
      && s in db.sockets
      && var socket := db.sockets[s];
         SocketLeft(db, db', s, Socket(socket.pdu, number, socket.status, socket.version + 1, false))
    case DeleteSocket(s, _) =>
      && s in db.sockets
      && var socket := db.sockets[s];
         SocketLeft(db, db', s, Socket(socket.pdu, socket.number, socket.status, socket.version + 1, true))
    case Connect(id, s, d, role) =>
      WireLeft(db, db', id, Connection(s, d, if role == DefaultRole then Primary else role, 1, false), SocketConnected)
    case Disconnect(c, _) =>
      && c in db.connections
      && var wire := db.connections[c];
         WireLeft(db, db', c, Connection(wire.socket, wire.device, wire.role, wire.version + 1, true), SocketAvailable)
    case Submit(id, q) => RecordLeft(db, db', id, q)
    case Approve(id, _, _, position, occupancy) =>
      && Decided(db, db', id, Approved)
      && Moved(db, db'.(approvals := db.approvals), Granted(db.approvals[id], position, occupancy),
               db.approvals[id].targetRack)
    case Reject(id, _, _) => db' == db.(approvals := db'.approvals) && Decided(db, db', id, Rejected)
  }

  // ----- why a request is refused -----

  /** The reason given for refusing a placement is one. */
  ghost predicate PlaceRefused(db: Db, q: Placement, error: Error) {
    var known := q.device in db.devices && !db.devices[q.device].deleted;
    match error
    case NotFound => !known || exists rack :: Names(q, rack) && (rack in db.racks ==> db.racks[rack].deleted)
    case DevicePositioned => known && q.operation != Move && db.devices[q.device].lifecycle in {Running, Maintenance}
    case DevicePowered => q.operation == Move && Plugged(db, q.device)
    case RackUnavailable =>
      exists rack :: Names(q, rack) && rack in db.racks && db.racks[rack].status in {Disabled, Planning}
    case RackUConflict =>
      && known
      && exists rack, u ::
           Eligible(db, q, rack) && q.startU <= u < q.startU + db.devices[q.device].heightU
           && StandsAt(db, q.device, rack, u)
    case InvalidResource =>
      && known
      && (|| (q.target == None && q.alias == None)
          || q.orientation !in {Unspecified, Normal, Reverse}
          || db.devices[q.device].lifecycle !in (if q.operation == Move then {Running, Maintenance}
                                                 else {WaitingRack, OffRack})
          || q.startU < 1 || db.devices[q.device].heightU < 1
          || exists rack :: Names(q, rack) && rack in db.racks
                            && db.racks[rack].uHeight < q.startU + db.devices[q.device].heightU - 1)
    case StorageError => q.position in db.positions || q.occupancy in db.occupancies
    case _ => false
  }

  ghost predicate DecisionRefused(db: Db, id: Id, decision: nat, actor: bool, error: Error) {
    if id !in db.approvals then error == NotFound
    else match error
      case VersionConflict => decision !in {0, db.approvals[id].version}
      case ApprovalStateConflict => db.approvals[id].status != Pending
      case Forbidden => !actor
      case _ => false
  }

  /** The reason given for refusing a request is one. */
  ghost predicate Refused(db: Db, r: Request, error: Error) {
    match r
    case CreateDevice(id, height, _, _) =>
      if error == InvalidResource then height.Some? && height.value < 1 else error == StorageError && id in db.devices
    case UpdateDevice(d, expected, height) =>
      if d in db.devices ==> db.devices[d].deleted then error == NotFound
      else if error == DevicePositioned then Seated(db, d) && height.Some? && height.value != db.devices[d].heightU
      else error == VersionConflict && db.devices[d].version != expected
    case DeleteDevice(d, expected) =>
      if d in db.devices ==> db.devices[d].deleted then error == NotFound
      else if error == DevicePositioned then Seated(db, d)
      else error == VersionConflict && db.devices[d].version != expected
    case Place(q) => PlaceRefused(db, q, error)
    case Remove(d) =>
      if d in db.devices ==> db.devices[d].deleted then error == NotFound
      else if error == InvalidResource then db.devices[d].lifecycle in {Scrapped, OffRack}
      else error == DevicePowered && Plugged(db, d)
    case CreateRack(id, _, _, _, _) => error == StorageError && id in db.racks
    case UpdateRack(id, expected, _, _) =>
      if id in db.racks ==> db.racks[id].deleted then error == NotFound
      else error == VersionConflict && db.racks[id].version != expected
    case DeleteRack(id, expected) =>
      if id in db.racks ==> db.racks[id].deleted then error == NotFound
      else if error == HasChildren then
        || (exists p :: p in db.positions && !db.positions[p].deleted && db.positions[p].at.rack == id)
        || (exists p :: p in db.pdus && !db.pdus[p].deleted && db.pdus[p].rack == id)
      else error == VersionConflict && db.racks[id].version != expected
    case CreatePdu(p, rack) =>
      if rack in db.racks ==> db.racks[rack].deleted then error == NotFound else error == StorageError && p in db.pdus
    case UpdatePdu(p) => error == NotFound && (p in db.pdus ==> db.pdus[p].deleted)
    case DeletePdu(p, expected) =>
      if p in db.pdus ==> db.pdus[p].deleted then error == NotFound
      else if error == PduInUse then Through(db, p) != {}
      else error == VersionConflict && db.pdus[p].version != expected
    case ForceArchive(p, expected, reasonGiven, confirmed) =>
      if !reasonGiven then error == InvalidResource
      else if p in db.pdus ==> db.pdus[p].deleted then error == NotFound
      else if error == ConfirmationRequired then confirmed != |Through(db, p)|
      else error == VersionConflict && db.pdus[p].version != expected
    case CreateSocket(s, p, number) =>
      if p in db.pdus ==> db.pdus[p].deleted then error == NotFound
      else if error == DuplicateCode then NumberUsed(db, p, number, s)
      else error == StorageError && s in db.sockets
    case UpdateSocket(s, number) =>
      if s in db.sockets ==> db.sockets[s].deleted then error == NotFound
      else error == DuplicateCode && NumberUsed(db, db.sockets[s].pdu, number, s)
    case DeleteSocket(s, expected) =>
      if s in db.sockets ==> db.sockets[s].deleted then error == NotFound
      else if error == SocketBusy then
        exists c :: c in db.connections && !db.connections[c].deleted && db.connections[c].socket == s
      else error == VersionConflict && db.sockets[s].version != expected
    case Connect(id, s, d, role) =>
      if (s in db.sockets ==> db.sockets[s].deleted) || (d in db.devices ==> db.devices[d].deleted) then
        error == NotFound
      else
        || (error == DeviceNotPositioned && !Seated(db, d))
        || (error == RackMismatch && Seated(db, d) && !SameRack(db, d, s))
        || (error == InvalidResource && role !in {DefaultRole, Primary, Standby})
        || (error == SocketBusy
            && exists c :: c in db.connections && !db.connections[c].deleted
                           && (db.connections[c].socket == s
                               || (db.connections[c].device == d
                                   && db.connections[c].role == if role == DefaultRole then Primary else role)))
        || (error == StorageError && id in db.connections)
    case Disconnect(c, expected) =>
      if c in db.connections ==> db.connections[c].deleted then error == NotFound
      else error == VersionConflict && db.connections[c].version != expected
    case Submit(id, q) =>
      if q.device in db.devices ==> db.devices[q.device].deleted then error == NotFound
      else if error == InvalidResource then q.target == None && q.alias == None
      else error == StorageError && (id in db.approvals || exists rack :: Names(q, rack) && rack !in db.racks)
    case Approve(id, decision, actor, position, occupancy) =>
      || DecisionRefused(db, id, decision, actor, error)
      || (id in db.approvals
          && var d := db.approvals[id].device;
             || (error == VersionConflict && d in db.devices
                 && db.devices[d].version != db.approvals[id].requestedVersion)
             || PlaceRefused(db, Granted(db.approvals[id], position, occupancy), error))
    case Reject(id, decision, actor) => DecisionRefused(db, id, decision, actor, error)
  }

  // ----- free U's -----

  /** The overlap check finds a conflict exactly if another device stands at one of the U's. */
  lemma ConflictIffTaken(db: Db, d: Id, rack: Id, startU: int, endU: int)
    requires Inv(db) && startU <= endU
    ensures Conflict(db.occupancies, d, rack, startU, endU) <==>
            exists u :: startU <= u <= endU && StandsAt(db, d, rack, u)
  {
    hide PowerOk, RecordsOk, OnePosition, DisjointOk;
    if o :| LiveOccupancy(db.occupancies, o) && db.occupancies[o].rack == rack && db.occupancies[o].device != d
            && RangesOverlap(startU, endU, db.occupancies[o].startU, db.occupancies[o].endU) {
      var p := db.occupancies[o].position;
      assert Mirrors(db.positions, db.occupancies, o, p);
      var u := if startU < db.positions[p].at.startU then db.positions[p].at.startU else startU;
      assert StandsAt(db, d, rack, u);
    }
    if u :| startU <= u <= endU && StandsAt(db, d, rack, u) {
      var p :| p in db.positions && !db.positions[p].deleted && db.positions[p].device != d
               && db.positions[p].at.rack == rack && db.positions[p].at.startU <= u <= db.positions[p].at.endU;
      assert LivePosition(db.positions, p);
      var o :| Mirrors(db.positions, db.occupancies, o, p);
      assert LiveOccupancy(db.occupancies, o);
    }
  }

  lemma PluggedIsPowered(db: Db, d: Id)
    ensures Plugged(db, d) <==> Powered(db.connections, d)
  {
    if c :| c in db.connections && !db.connections[c].deleted && db.connections[c].device == d {
      assert LiveConnection(db.connections, c);
    }
  }

  lemma SeatedIsActive(db: Db, d: Id)
    ensures Seated(db, d) <==> Active(db.positions, d).Some?
  {
    if p :| p in db.positions && !db.positions[p].deleted && db.positions[p].device == d {
      assert Holds(db.positions, p, d);
    }
  }

  // ----- placing -----

  lemma NamesOne(q: Placement, rack: Id)
    ensures Names(q, rack) <==> q.DesiredRack() == Some(rack)
  {
  }

  /** What the lifecycle, rack and orientation checks let through is what the tables say. */
  lemma ChecksAreEligible(db: Db, q: Placement, rack: Id)
    requires q.device in db.devices && !db.devices[q.device].deleted && q.DesiredRack() == Some(rack)
    requires rack in db.racks && !db.racks[rack].deleted
    ensures Eligible(db, q, rack) <==>
            && CheckLifecycle(db.devices[q.device], q.operation).None?
            && !(q.operation == Move && Powered(db.connections, q.device))
            && CheckRack(db.devices[q.device], db.racks[rack], q.startU, q.orientation).None?
  {
    PluggedIsPowered(db, q.device);
    hide Plugged, Powered;
  }

  lemma PlaceAccepts(db: Db, q: Placement, rack: Id)
    requires q.device in db.devices && !db.devices[q.device].deleted && q.DesiredRack() == Some(rack)
    requires rack in db.racks && !db.racks[rack].deleted
    ensures PlaceDevice(db, q).Done? <==>
            && Eligible(db, q, rack)
            && !Conflict(db.occupancies, q.device, rack, q.startU, q.startU + db.devices[q.device].heightU - 1)
            && q.position !in db.positions && q.occupancy !in db.occupancies
  {
    ChecksAreEligible(db, q, rack);
    hide Eligible, CheckLifecycle, CheckRack, Conflict, Powered, PlaceEffect;
  }

  /** A placement succeeds exactly if the device may go, the rack takes it and the U's are free of other devices. */
  lemma PlaceSucceedsIff(db: Db, q: Placement)
    requires Inv(db)
    ensures PlaceDevice(db, q).Done? <==> MayPlace(db, q)
  {
    hide Inv, Conflict, StandsAt;
    if PlaceDevice(db, q).Done? {
      var rack := q.DesiredRack().value;
      PlaceAccepts(db, q, rack);
      hide PlaceDevice;
      ConflictIffTaken(db, q.device, rack, q.startU, q.startU + db.devices[q.device].heightU - 1);
    }
    if MayPlace(db, q) {
      hide PlaceDevice;
      var rack :| Eligible(db, q, rack) &&
        forall u :: q.startU <= u < q.startU + db.devices[q.device].heightU ==> !StandsAt(db, q.device, rack, u);
      PlaceAccepts(db, q, rack);
      ConflictIffTaken(db, q.device, rack, q.startU, q.startU + db.devices[q.device].heightU - 1);
    }
  }

  lemma OnlyActive(positions: map<Id, Position>, p: Id, d: Id)
    requires OnePosition(positions) && Holds(positions, p, d)
    ensures Active(positions, d) == Some(p)
  {
  }

  lemma ReleaseEndsPosition(db: Db, d: Id)
    requires OnePosition(db.positions)
    ensures forall p :: p in db.positions && !db.positions[p].deleted && db.positions[p].device == d ==>
                          Active(db.positions, d) == Some(p)
  {
    forall p | p in db.positions && !db.positions[p].deleted && db.positions[p].device == d
      ensures Active(db.positions, d) == Some(p)
    {
      OnlyActive(db.positions, p, d);
    }
  }

  lemma ReleaseEndsOccupancy(db: Db, d: Id)
    requires OnePosition(db.positions) && MirrorOk(db.positions, db.occupancies)
    ensures forall o :: o in db.occupancies && !db.occupancies[o].deleted ==>
              (db.occupancies[o].device == d <==> Active(db.positions, d) == Some(db.occupancies[o].position))
  {
    forall o | o in db.occupancies && !db.occupancies[o].deleted
      ensures db.occupancies[o].device == d <==> Active(db.positions, d) == Some(db.occupancies[o].position)
    {
      assert LiveOccupancy(db.occupancies, o);
      assert Mirrors(db.positions, db.occupancies, o, db.occupancies[o].position);
      OnlyActive(db.positions, db.occupancies[o].position, db.occupancies[o].device);
    }
  }

  /** The release before a placement ends the device's position and its occupancy. */
  lemma ReleaseVacates(db: Db, d: Id)
    requires OnePosition(db.positions) && MirrorOk(db.positions, db.occupancies)
    ensures Vacated(db, ReleaseDevice(db, d), d)
    ensures ReleaseDevice(db, d).positions.Keys == db.positions.Keys
    ensures ReleaseDevice(db, d).occupancies.Keys == db.occupancies.Keys
    ensures ReleaseDevice(db, d) ==
            db.(positions := ReleaseDevice(db, d).positions, occupancies := ReleaseDevice(db, d).occupancies)
  {
    hide OnePosition, MirrorOk, Active;
    ReleaseEndsPosition(db, d);
    ReleaseEndsOccupancy(db, d);
    if Active(db.positions, d).None? {
    } else {
      ReleasedRows(db, Active(db.positions, d).value);
      hide ReleasePosition;
    }
  }

  lemma ReleasedRows(db: Db, active: Id)
    requires active in db.positions
    ensures var after := ReleasePosition(db, active);
            && after == db.(positions := after.positions, occupancies := after.occupancies)
            && after.positions.Keys == db.positions.Keys && after.occupancies.Keys == db.occupancies.Keys
            && (forall p :: p in db.positions ==>
                  after.positions[p] ==
                    if p == active then db.positions[p].(deleted := true, version := db.positions[p].version + 1)
                    else db.positions[p])
            && (forall o :: o in db.occupancies ==>
                  after.occupancies[o] ==
                    if !db.occupancies[o].deleted && db.occupancies[o].position == active
                    then db.occupancies[o].(deleted := true, version := db.occupancies[o].version + 1)
                    else db.occupancies[o])
  {
  }

  lemma EffectMoves(db: Db, q: Placement, rack: Id, at: Snapshot)
    requires OnePosition(db.positions) && MirrorOk(db.positions, db.occupancies)
    requires q.device in db.devices && rack in db.racks && q.position !in db.positions && q.occupancy !in db.occupancies
    requires at == Snapshot(rack, db.racks[rack].room, db.racks[rack].dataCenter, q.startU,
                            db.devices[q.device].heightU, q.startU + db.devices[q.device].heightU - 1,
                            if q.orientation == Unspecified then Normal else q.orientation)
    ensures Moved(db, PlaceEffect(db, q, at, ActiveAt(db.positions, q.device)), q, rack)
  {
    hide ReleaseDevice, OnePosition, MirrorOk, ActiveAt, SitsAt, Vacated;
    ActiveSitsAt(db.positions, q.device);
    ReleaseVacates(db, q.device);
    var after := PlaceEffect(db, q, at, ActiveAt(db.positions, q.device));
    VacatedThenGrown(db, ReleaseDevice(db, q.device), after, q.device, q.position, q.occupancy);
  }

  lemma VacatedThenGrown(db: Db, vacated: Db, after: Db, d: Id, position: Id, occupancy: Id)
    requires Vacated(db, vacated, d) && position !in db.positions && occupancy !in db.occupancies
    requires OnlyRow(vacated.positions, after.positions, position)
    requires OnlyRow(vacated.occupancies, after.occupancies, occupancy)
    ensures Vacated(db, after, d)
  {
  }

  lemma PlaceMoves(db: Db, q: Placement) returns (rack: Id)
    requires Inv(db) && PlaceDevice(db, q).Done?
    ensures Names(q, rack) && Moved(db, PlaceDevice(db, q).db, q, rack)
  {
    rack := q.DesiredRack().value;
    var at := TargetSnapshot(db.devices[q.device], rack, db.racks[rack], q.startU, q.orientation);
    hide CheckLifecycle, CheckRack, Powered, Conflict, ActiveAt, PlaceEffect, Moved, OnePosition, MirrorOk, PowerOk;
    hide RecordsOk, PositionsOk, DisjointOk;
    EffectMoves(db, q, rack, at);
  }

  lemma PlaceOutcome(db: Db, q: Placement)
    requires Inv(db)
    ensures PlaceDevice(db, q).Done? <==> Succeeds(db, Place(q))
    ensures PlaceDevice(db, q).Done? ==> Leaves(db, Place(q), PlaceDevice(db, q).db)
  {
    hide Inv, PlaceDevice, MayPlace, Moved, Names;
    PlaceSucceedsIff(db, q);
    if PlaceDevice(db, q).Done? {
      var rack := PlaceMoves(db, q);
    }
  }

  lemma RemoveAccepts(db: Db, d: Id)
    ensures RemoveDevice(db, d).Done? <==> Succeeds(db, Remove(d))
  {
    PluggedIsPowered(db, d);
    hide ReleaseDevice, ActiveAt, Plugged, Powered, SetLifecycle;
  }

  lemma RemoveVacates(db: Db, d: Id)
    requires OnePosition(db.positions) && MirrorOk(db.positions, db.occupancies) && d in db.devices
    ensures Leaves(db, Remove(d), RemoveEffect(db, d, ActiveAt(db.positions, d)))
  {
    ActiveSitsAt(db.positions, d);
    ReleaseVacates(db, d);
    hide ReleaseDevice, ActiveAt, SitsAt, OnePosition, MirrorOk;
  }

  lemma RemoveOutcome(db: Db, d: Id)
    requires Inv(db)
    ensures RemoveDevice(db, d).Done? <==> Succeeds(db, Remove(d))
    ensures RemoveDevice(db, d).Done? ==> Leaves(db, Remove(d), RemoveDevice(db, d).db)
  {
    RemoveAccepts(db, d);
    hide Succeeds, Leaves, RemoveEffect, ActiveAt, PositionsOk, OnePosition, MirrorOk, DisjointOk, PowerOk, RecordsOk;
    if RemoveDevice(db, d).Done? {
      RemoveVacates(db, d);
    }
  }

  // ----- devices and racks -----

  lemma DeviceOutcome(db: Db, r: Request)
    requires r.CreateDevice? || r.UpdateDevice? || r.DeleteDevice?
    ensures Apply(db, r).Done? <==> Succeeds(db, r)
    ensures Apply(db, r).Done? ==> Leaves(db, r, Apply(db, r).db)
  {
    SeatedIsActive(db, r.id);
    hide Seated, Active;
  }

  lemma HasPositionsMeans(db: Db, rack: Id)
    ensures HasPositions(db.positions, rack) <==>
            exists p :: p in db.positions && !db.positions[p].deleted && db.positions[p].at.rack == rack
  {
    if p :| p in db.positions && !db.positions[p].deleted && db.positions[p].at.rack == rack {
      assert LivePosition(db.positions, p);
    }
  }

  lemma HasPdusMeans(db: Db, rack: Id)
    ensures HasPdus(db.pdus, rack) <==> exists p :: p in db.pdus && !db.pdus[p].deleted && db.pdus[p].rack == rack
  {
    if p :| p in db.pdus && !db.pdus[p].deleted && db.pdus[p].rack == rack {
      assert LivePdu(db.pdus, p);
    }
  }

  lemma DeleteRackOutcome(db: Db, rack: Id, expected: nat)
    ensures EraseRack(db, rack, expected).Done? <==> Succeeds(db, DeleteRack(rack, expected))
    ensures EraseRack(db, rack, expected).Done? ==>
              Leaves(db, DeleteRack(rack, expected), EraseRack(db, rack, expected).db)
  {
    HasPositionsMeans(db, rack);
    HasPdusMeans(db, rack);
    hide HasPositions, HasPdus;
  }

  lemma RackOutcome(db: Db, r: Request)
    requires r.CreateRack? || r.UpdateRack? || r.DeleteRack?
    ensures Apply(db, r).Done? <==> Succeeds(db, r)
    ensures Apply(db, r).Done? ==> Leaves(db, r, Apply(db, r).db)
  {
    if r.DeleteRack? {
      hide Succeeds, Leaves, EraseRack;
      DeleteRackOutcome(db, r.id, r.expected);
    } else {
      hide HasPositions, HasPdus;
    }
  }

  // ----- power -----

  /** In tables that keep the invariant a live connection goes through a live socket. */
  lemma ThroughIsImpact(db: Db, p: Id)
    requires Inv(db)
    ensures Through(db, p) == Impact(db.sockets, db.connections, p)
  {
    hide LayoutOk, RecordsOk, PdusOk, SocketsOk, StatusOk;
    forall c
      ensures c in Through(db, p) <==> c in Impact(db.sockets, db.connections, p)
    {
      assert c in Through(db, p) ==> LiveConnection(db.connections, c);
    }
  }

  lemma ErasePduOutcome(db: Db, p: Id, expected: nat)
    requires Through(db, p) == Impact(db.sockets, db.connections, p)
    ensures ErasePdu(db, p, expected).Done? <==> Succeeds(db, DeletePdu(p, expected))
    ensures ErasePdu(db, p, expected).Done? ==> Leaves(db, DeletePdu(p, expected), ErasePdu(db, p, expected).db)
  {
    hide Impact, Through;
  }

  lemma ArchiveOutcome(db: Db, r: Request)
    requires r.ForceArchive? && Through(db, r.id) == Impact(db.sockets, db.connections, r.id)
    ensures ArchivePdu(db, r).Done? <==> Succeeds(db, r)
    ensures ArchivePdu(db, r).Done? ==> Leaves(db, r, ArchivePdu(db, r).db)
  {
    hide Impact;
    ArchiveCuts(db, r.id);
    hide Through, DropConnections;
  }

  lemma ArchiveCuts(db: Db, p: Id)
    ensures DropConnections(db.sockets, db.connections, p).Keys == db.connections.Keys
    ensures forall c :: c in db.connections ==>
              DropConnections(db.sockets, db.connections, p)[c] ==
                if c in Through(db, p)
                then db.connections[c].(deleted := true, version := db.connections[c].version + 1)
                else db.connections[c]
  {
  }

  lemma PduOutcome(db: Db, r: Request)
    requires Inv(db) && (r.CreatePdu? || r.UpdatePdu? || r.DeletePdu? || r.ForceArchive?)
    ensures Apply(db, r).Done? <==> Succeeds(db, r)
    ensures Apply(db, r).Done? ==> Leaves(db, r, Apply(db, r).db)
  {
    hide Inv, Impact, Through;
    ThroughIsImpact(db, r.id);
    if r.DeletePdu? {
      hide Succeeds, Leaves, ErasePdu;
      ErasePduOutcome(db, r.id, r.expected);
    } else if r.ForceArchive? {
      hide Succeeds, Leaves, ArchivePdu;
      ArchiveOutcome(db, r);
    }
  }

  lemma InUseMeans(db: Db, s: Id)
    ensures SocketInUse(db.connections, s) <==>
            exists c :: c in db.connections && !db.connections[c].deleted && db.connections[c].socket == s
  {
    if c :| c in db.connections && !db.connections[c].deleted && db.connections[c].socket == s {
      assert LiveConnection(db.connections, c);
    }
  }

  lemma SocketOutcome(db: Db, r: Request)
    requires Inv(db) && (r.CreateSocket? || r.UpdateSocket? || r.DeleteSocket?)
    ensures Apply(db, r).Done? <==> Succeeds(db, r)
    ensures Apply(db, r).Done? ==> Leaves(db, r, Apply(db, r).db)
  {
    hide Inv, SocketInUse;
    InUseMeans(db, r.id);
    if r.id in db.sockets && !db.sockets[r.id].deleted {
      UsedIsConnected(db, r.id);
    }
  }

  lemma UsedIsConnected(db: Db, s: Id)
    requires Inv(db) && s in db.sockets && !db.sockets[s].deleted
    ensures LivePdu(db.pdus, db.sockets[s].pdu)
    ensures db.sockets[s].status == SocketConnected <==>
            exists c :: c in db.connections && !db.connections[c].deleted && db.connections[c].socket == s
  {
    hide LayoutOk, RecordsOk, PdusOk;
    if c :| c in db.connections && !db.connections[c].deleted && db.connections[c].socket == s {
      assert LiveConnection(db.connections, c);
    }
  }

  lemma SameRackMeans(db: Db, d: Id, s: Id)
    requires OnePosition(db.positions) && s in db.sockets && db.sockets[s].pdu in db.pdus
    ensures SameRack(db, d, s) <==>
            && ActiveAt(db.positions, d).Some?
            && ActiveAt(db.positions, d).value.rack == db.pdus[db.sockets[s].pdu].rack
  {
    if p :| p in db.positions && !db.positions[p].deleted && db.positions[p].device == d
            && db.positions[p].at.rack == db.pdus[db.sockets[s].pdu].rack {
      OnlyActive(db.positions, p, d);
    }
  }

  lemma RoleTakenMeans(db: Db, d: Id, role: Role)
    ensures RoleTaken(db.connections, d, role) <==>
            exists c :: c in db.connections && !db.connections[c].deleted && db.connections[c].device == d
                        && db.connections[c].role == role
  {
    if c :| c in db.connections && !db.connections[c].deleted && db.connections[c].device == d
            && db.connections[c].role == role {
      assert LiveConnection(db.connections, c);
    }
  }

  lemma ConnectAccepts(db: Db, r: Request)
    requires Inv(db) && r.Connect?
    ensures ConnectDevice(db, r).Done? <==> MayConnect(db, r.id, r.socket, r.device, r.role)
  {
    OnePositionOf(db);
    hide Inv, SameRack, ActiveAt, RoleTaken, OnePosition;
    if r.socket in db.sockets && !db.sockets[r.socket].deleted {
      UsedIsConnected(db, r.socket);
      SameRackMeans(db, r.device, r.socket);
      RoleTakenMeans(db, r.device, if r.role == DefaultRole then Primary else r.role);
    }
  }

  lemma ConnectLeaves(db: Db, r: Request)
    requires r.Connect? && ConnectDevice(db, r).Done?
    ensures Leaves(db, r, ConnectDevice(db, r).db)
  {
    hide ActiveAt, RoleTaken;
  }

  lemma ConnectOutcome(db: Db, r: Request)
    requires Inv(db) && r.Connect?
    ensures ConnectDevice(db, r).Done? <==> Succeeds(db, r)
    ensures ConnectDevice(db, r).Done? ==> Leaves(db, r, ConnectDevice(db, r).db)
  {
    hide Inv, ConnectDevice, MayConnect, Leaves;
    ConnectAccepts(db, r);
    if ConnectDevice(db, r).Done? {
      ConnectLeaves(db, r);
    }
  }

  lemma DisconnectOutcome(db: Db, c: Id, expected: nat)
    requires Inv(db)
    ensures DisconnectDevice(db, c, expected).Done? <==> Succeeds(db, Disconnect(c, expected))
    ensures DisconnectDevice(db, c, expected).Done? ==>
              Leaves(db, Disconnect(c, expected), DisconnectDevice(db, c, expected).db)
  {
    hide LayoutOk, RecordsOk, StatusOk, PdusOk, SocketsOk;
    assert c in db.connections && !db.connections[c].deleted ==> LiveConnection(db.connections, c);
  }

  // ----- approvals -----

  lemma SubmitOutcome(db: Db, id: Id, q: Placement)
    ensures SubmitApproval(db, id, q).Done? <==> Succeeds(db, Submit(id, q))
    ensures SubmitApproval(db, id, q).Done? ==> Leaves(db, Submit(id, q), SubmitApproval(db, id, q).db)
  {
    ActiveSitsAt(db.positions, q.device);
    hide ActiveAt, SitsAt;
    assert forall rack: Id :: Names(q, rack) <==> q.DesiredRack() == Some(rack);
  }

  lemma DecisionAccepted(db: Db, id: Id, decision: nat, actor: bool)
    ensures MayDecide(db, id, decision, actor) <==>
            && id in db.approvals && CheckDecision(db.approvals[id], decision, actor).None?
            && Claimable(db.approvals[id], decision)
  {
  }

  lemma GrantedIsApproved(a: Approval, position: Id, occupancy: Id)
    ensures Granted(a, position, occupancy) == ApprovedPlacement(a, position, occupancy)
  {
  }

  lemma ApproveAccepts(db: Db, r: Request)
    requires Inv(db) && r.Approve?
    ensures ApproveRequest(db, r).Done? <==> Succeeds(db, r)
  {
    hide Inv, PlaceDevice, MayDecide, CheckDecision, Claimable, MayPlace, DecideEffect, Granted, ApprovedPlacement;
    DecisionAccepted(db, r.id, r.decision, r.actor);
    if r.id in db.approvals {
      var q := Granted(db.approvals[r.id], r.position, r.occupancy);
      GrantedIsApproved(db.approvals[r.id], r.position, r.occupancy);
      RecordIsAdmissible(db, r.id);
      PlaceCommutesWithDecision(db, q, r.id, Approved);
      PlaceSucceedsIff(db, q);
      MayPlaceLive(db, q);
      GrantedDevice(db.approvals[r.id], r.position, r.occupancy);
    }
  }

  lemma GrantedDevice(a: Approval, position: Id, occupancy: Id)
    ensures Granted(a, position, occupancy).device == a.device
    ensures forall rack: Id :: Names(Granted(a, position, occupancy), rack) ==> rack == a.targetRack
  {
  }

  lemma MayPlaceLive(db: Db, q: Placement)
    ensures MayPlace(db, q) ==> q.device in db.devices && !db.devices[q.device].deleted
  {
  }

  lemma ApproveLeaves(db: Db, r: Request)
    requires Inv(db) && r.Approve? && ApproveRequest(db, r).Done?
    ensures Leaves(db, r, ApproveRequest(db, r).db)
  {
    hide Inv, PlaceDevice, CheckDecision, Claimable, Moved, Granted, ApprovedPlacement, Names;
    var q := Granted(db.approvals[r.id], r.position, r.occupancy);
    GrantedIsApproved(db.approvals[r.id], r.position, r.occupancy);
    PlaceCommutesWithDecision(db, q, r.id, Approved);
    var rack := PlaceMoves(db, q);
    GrantedDevice(db.approvals[r.id], r.position, r.occupancy);
    PlaceAdvancesDevice(db, q);
    assert ApproveRequest(db, r).db.(approvals := db.approvals) == PlaceDevice(db, q).db;
  }

  lemma ApproveOutcome(db: Db, r: Request)
    requires Inv(db) && r.Approve?
    ensures ApproveRequest(db, r).Done? <==> Succeeds(db, r)
    ensures ApproveRequest(db, r).Done? ==> Leaves(db, r, ApproveRequest(db, r).db)
  {
    hide Inv, ApproveRequest, Succeeds, Leaves;
    ApproveAccepts(db, r);
    if ApproveRequest(db, r).Done? {
      ApproveLeaves(db, r);
    }
  }

  lemma RejectOutcome(db: Db, r: Request)
    requires r.Reject?
    ensures RejectRequest(db, r).Done? <==> Succeeds(db, r)
    ensures RejectRequest(db, r).Done? ==> Leaves(db, r, RejectRequest(db, r).db)
  {
    DecisionAccepted(db, r.id, r.decision, r.actor);
    hide MayDecide, CheckDecision, Claimable;
  }

  // ----- every request -----

  lemma PowerOutcome(db: Db, r: Request)
    requires Inv(db) && (r.Connect? || r.Disconnect?)
    ensures Apply(db, r).Done? <==> Succeeds(db, r)
    ensures Apply(db, r).Done? ==> Leaves(db, r, Apply(db, r).db)
  {
    hide Inv, Succeeds, Leaves, ConnectDevice, DisconnectDevice;
    if r.Connect? {
      ConnectOutcome(db, r);
    } else {
      DisconnectOutcome(db, r.id, r.expected);
    }
  }

  lemma MoveOutcome(db: Db, r: Request)
    requires Inv(db) && (r.Place? || r.Remove? || r.Submit? || r.Approve? || r.Reject?)
    ensures Apply(db, r).Done? <==> Succeeds(db, r)
    ensures Apply(db, r).Done? ==> Leaves(db, r, Apply(db, r).db)
  {
    hide Inv, Succeeds, Leaves, PlaceDevice, RemoveDevice, SubmitApproval, ApproveRequest, RejectRequest;
    match r
    case Place(q) => PlaceOutcome(db, q);
    case Remove(d) => RemoveOutcome(db, d);
    case Submit(id, q) => SubmitOutcome(db, id, q);
    case Approve(_, _, _, _, _) => ApproveOutcome(db, r);
    case Reject(_, _, _) => RejectOutcome(db, r);
  }

  /** Each request succeeds exactly when the tables say so, and leaves exactly what it should. */
  lemma RequestOutcome(db: Db, r: Request)
    requires Inv(db)
    ensures Apply(db, r).Done? <==> Succeeds(db, r)
    ensures Apply(db, r).Done? ==> Leaves(db, r, Apply(db, r).db)
  {
    hide Inv, Succeeds, Leaves, Apply;
    if r.CreateDevice? || r.UpdateDevice? || r.DeleteDevice? {
      DeviceOutcome(db, r);
    } else if r.CreateRack? || r.UpdateRack? || r.DeleteRack? {
      RackOutcome(db, r);
    } else if r.CreatePdu? || r.UpdatePdu? || r.DeletePdu? || r.ForceArchive? {
      PduOutcome(db, r);
    } else if r.CreateSocket? || r.UpdateSocket? || r.DeleteSocket? {
      SocketOutcome(db, r);
    } else if r.Connect? || r.Disconnect? {
      PowerOutcome(db, r);
    } else {
      MoveOutcome(db, r);
    }
  }

  // ----- refusals -----

  lemma PlaceRefusal(db: Db, q: Placement)
    requires Inv(db) && PlaceDevice(db, q).Fail?
    ensures PlaceRefused(db, q, PlaceDevice(db, q).error)
  {
    hide Inv, Conflict, StandsAt, Powered, Plugged, PlaceEffect;
    PluggedIsPowered(db, q.device);
    var rack := q.DesiredRack();
    if rack.Some? {
      NamesOne(q, rack.value);
      if LiveDevice(db.devices, q.device) && LiveRack(db.racks, rack.value) {
        ChecksAreEligible(db, q, rack.value);
        hide Eligible;
        if PlaceDevice(db, q).error == RackUConflict {
          ConflictIffTaken(db, q.device, rack.value, q.startU, q.startU + db.devices[q.device].heightU - 1);
        }
      }
    }
  }

  lemma DeviceRefusal(db: Db, r: Request)
    requires (r.CreateDevice? || r.UpdateDevice? || r.DeleteDevice? || r.Remove?) && Apply(db, r).Fail?
    ensures Refused(db, r, Apply(db, r).error)
  {
    SeatedIsActive(db, r.id);
    PluggedIsPowered(db, r.id);
    hide Seated, Active, Plugged, Powered, RemoveEffect;
  }

  lemma RackRefusal(db: Db, r: Request)
    requires (r.CreateRack? || r.UpdateRack? || r.DeleteRack?) && Apply(db, r).Fail?
    ensures Refused(db, r, Apply(db, r).error)
  {
    HasPositionsMeans(db, r.id);
    HasPdusMeans(db, r.id);
    hide HasPositions, HasPdus;
  }

  lemma PduRefusal(db: Db, r: Request)
    requires Inv(db) && (r.CreatePdu? || r.UpdatePdu? || r.DeletePdu? || r.ForceArchive?) && Apply(db, r).Fail?
    ensures Refused(db, r, Apply(db, r).error)
  {
    hide Inv, Impact, Through, ArchiveEffect, RetirePdu;
    ThroughIsImpact(db, r.id);
  }

  lemma SocketRefusal(db: Db, r: Request)
    requires Inv(db) && (r.CreateSocket? || r.UpdateSocket? || r.DeleteSocket?) && Apply(db, r).Fail?
    ensures Refused(db, r, Apply(db, r).error)
  {
    hide Inv, SocketInUse;
    InUseMeans(db, r.id);
    if r.id in db.sockets && !db.sockets[r.id].deleted {
      UsedIsConnected(db, r.id);
    }
  }

  lemma ConnectRefusal(db: Db, id: Id, s: Id, d: Id, role: Role)
    requires Inv(db) && ConnectDevice(db, Connect(id, s, d, role)).Fail?
    ensures Refused(db, Connect(id, s, d, role), ConnectDevice(db, Connect(id, s, d, role)).error)
  {
    OnePositionOf(db);
    hide Inv, SameRack, RoleTaken, OnePosition, Seated, Active, ConnectEffect;
    if s in db.sockets && !db.sockets[s].deleted {
      SeatedIsActive(db, d);
      UsedIsConnected(db, s);
      SameRackMeans(db, d, s);
      RoleTakenMeans(db, d, if role == DefaultRole then Primary else role);
    }
  }

  lemma LiveWire(db: Db, c: Id)
    requires Inv(db) && c in db.connections && !db.connections[c].deleted
    ensures LiveSocket(db.sockets, db.connections[c].socket)
    ensures LivePdu(db.pdus, db.sockets[db.connections[c].socket].pdu)
  {
    hide LayoutOk, RecordsOk, StatusOk, PdusOk, SocketsOk;
    assert LiveConnection(db.connections, c);
  }

  lemma DisconnectRefusal(db: Db, c: Id, expected: nat)
    requires Inv(db) && DisconnectDevice(db, c, expected).Fail?
    ensures Refused(db, Disconnect(c, expected), DisconnectDevice(db, c, expected).error)
  {
    hide Inv;
    if c in db.connections && !db.connections[c].deleted {
      LiveWire(db, c);
    }
  }

  lemma SubmitRefusal(db: Db, id: Id, q: Placement)
    requires SubmitApproval(db, id, q).Fail?
    ensures Refused(db, Submit(id, q), SubmitApproval(db, id, q).error)
  {
    assert q.DesiredRack().Some? ==> Names(q, q.DesiredRack().value);
  }

  lemma DecisionRefusal(db: Db, id: Id, decision: nat, actor: bool)
    requires id in db.approvals && !MayDecide(db, id, decision, actor)
    ensures var refused := CheckDecision(db.approvals[id], decision, actor);
            DecisionRefused(db, id, decision, actor, if refused.Some? then refused.value else VersionConflict)
  {
  }

  lemma GoneIsRefused(db: Db, q: Placement)
    requires !LiveDevice(db.devices, q.device)
    ensures PlaceRefused(db, q, NotFound)
  {
  }

  lemma ApproveRefusal(db: Db, r: Request)
    requires Inv(db) && r.Approve? && ApproveRequest(db, r).Fail?
    ensures Refused(db, r, ApproveRequest(db, r).error)
  {
    hide Inv, PlaceDevice, PlaceRefused, MayDecide, CheckDecision, Claimable, DecideEffect, Granted, ApprovedPlacement;
    DecisionAccepted(db, r.id, r.decision, r.actor);
    if r.id in db.approvals {
      var q := Granted(db.approvals[r.id], r.position, r.occupancy);
      GrantedIsApproved(db.approvals[r.id], r.position, r.occupancy);
      RecordIsAdmissible(db, r.id);
      PlaceCommutesWithDecision(db, q, r.id, Approved);
      if !MayDecide(db, r.id, r.decision, r.actor) {
        DecisionRefusal(db, r.id, r.decision, r.actor);
      } else if !LiveDevice(db.devices, db.approvals[r.id].device) {
        GrantedDevice(db.approvals[r.id], r.position, r.occupancy);
        GoneIsRefused(db, q);
      } else if PlaceDevice(db, q).Fail? {
        PlaceRefusal(db, q);
      }
    }
  }

  lemma ApprovalRefusal(db: Db, r: Request)
    requires Inv(db) && (r.Submit? || r.Approve? || r.Reject?) && Apply(db, r).Fail?
    ensures Refused(db, r, Apply(db, r).error)
  {
    hide Inv, ApproveRequest, SubmitApproval, Claimable, CheckDecision, MayDecide;
    match r
    case Submit(id, q) => SubmitRefusal(db, id, q);
    case Approve(_, _, _, _, _) =>
      hide Refused;
      ApproveRefusal(db, r);
    case Reject(id, decision, actor) =>
      DecisionAccepted(db, id, decision, actor);
      if id in db.approvals {
        DecisionRefusal(db, id, decision, actor);
      }
  }

  /** A request that is refused is refused for a reason, and the error names it. */
  lemma RefusalIsTruthful(db: Db, r: Request)
    requires Inv(db) && Apply(db, r).Fail?
    ensures Refused(db, r, Apply(db, r).error)
  {
    hide Inv, Refused, PlaceDevice, ConnectDevice, DisconnectDevice;
    match r
    case Place(q) => PlacementRefusal(db, q);
    case Connect(id, s, d, role) => ConnectRefusal(db, id, s, d, role);
    case Disconnect(c, expected) => DisconnectRefusal(db, c, expected);
    case _ =>
      hide Apply;
      if r.CreateDevice? || r.UpdateDevice? || r.DeleteDevice? || r.Remove? {
        DeviceRefusal(db, r);
      } else if r.CreateRack? || r.UpdateRack? || r.DeleteRack? {
        RackRefusal(db, r);
      } else if r.CreatePdu? || r.UpdatePdu? || r.DeletePdu? || r.ForceArchive? {
        PduRefusal(db, r);
      } else if r.CreateSocket? || r.UpdateSocket? || r.DeleteSocket? {
        SocketRefusal(db, r);
      } else {
        ApprovalRefusal(db, r);
      }
  }

  lemma PlacementRefusal(db: Db, q: Placement)
    requires Inv(db) && PlaceDevice(db, q).Fail?
    ensures Refused(db, Place(q), PlaceDevice(db, q).error)
  {
    hide Inv, PlaceDevice, PlaceRefused;
    PlaceRefusal(db, q);
  }
}
