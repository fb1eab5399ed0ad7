// What each transaction does when it runs alone: the specification of the service methods
// and, through the refinement in Interleaving.dfy, of every concurrent execution.

module Transactions {
  import opened Wrappers
  import opened Inventory

  datatype Error =
    | NotFound | Forbidden | InvalidResource | StorageError | DuplicateCode
    | VersionConflict | ApprovalStateConflict
    | DevicePositioned | DevicePowered | DeviceNotPositioned
    | RackUnavailable | RackUConflict | HasChildren
    | PduInUse | SocketBusy | RackMismatch | ConfirmationRequired

  datatype Outcome = Done(db: Db) | Fail(error: Error)

  /** A request to assign or move a device; `target` and `alias` are the two fields that may name the rack. */
  datatype Placement = Placement(
    device: Id, operation: Operation, target: Option<Id>, alias: Option<Id>, startU: int, orientation: Orientation,
    position: Id, occupancy: Id)
  {
    function DesiredRack(): Option<Id> {
      if target.Some? then target else alias
    }
  }

  datatype Request =
    | CreateDevice(id: Id, givenHeight: Option<int>, typeHeight: int, given: Option<Lifecycle>)
    | UpdateDevice(id: Id, expected: nat, newHeight: Option<int>)
    | DeleteDevice(id: Id, expected: nat)
    | Place(placement: Placement)
    | Remove(id: Id)
    | CreateRack(id: Id, status: RackStatus, uHeight: int, room: Id, dataCenter: Id)
    | UpdateRack(id: Id, expected: nat, status: RackStatus, uHeight: int)
    | DeleteRack(id: Id, expected: nat)
    | CreatePdu(id: Id, rack: Id)
    | UpdatePdu(id: Id)
    | DeletePdu(id: Id, expected: nat)
    | ForceArchive(id: Id, expected: nat, reasonGiven: bool, confirmed: int)
    | CreateSocket(id: Id, pdu: Id, number: int)
    | UpdateSocket(id: Id, number: int)
    | DeleteSocket(id: Id, expected: nat)
    | Connect(id: Id, socket: Id, device: Id, role: Role)
    | Disconnect(id: Id, expected: nat)
    | Submit(id: Id, placement: Placement)
    | Approve(id: Id, decision: nat, actor: bool, position: Id, occupancy: Id)
    | Reject(id: Id, decision: nat, actor: bool)

  // ----- checks on the rows a transaction has read -----

  function CheckLifecycle(dev: Device, operation: Operation): Option<Error> {
    var inPlace := dev.lifecycle == Running || dev.lifecycle == Maintenance;
    if operation == Move then
      if inPlace then None else Some(InvalidResource)
    else if inPlace then Some(DevicePositioned)
    else if dev.lifecycle == WaitingRack || dev.lifecycle == OffRack then None
    else Some(InvalidResource)
  }

  function CheckRack(dev: Device, rack: Rack, startU: int, orientation: Orientation): Option<Error> {
    if rack.status == Disabled || rack.status == Planning then Some(RackUnavailable)
    else if startU < 1 || dev.heightU < 1 || startU + dev.heightU - 1 > rack.uHeight then Some(InvalidResource)
    else if orientation.UnknownOrientation? then Some(InvalidResource)
    else None
  }

  function ResolveOrientation(orientation: Orientation): Orientation {
    if orientation.Unspecified? then Normal else orientation
  }

  function ResolveRole(role: Role): Role {
    if role.DefaultRole? then Primary else role
  }

  function TargetSnapshot(dev: Device, rackId: Id, rack: Rack, startU: int, orientation: Orientation): Snapshot {
    Snapshot(rackId, rack.room, rack.dataCenter, startU, dev.heightU, startU + dev.heightU - 1,
             ResolveOrientation(orientation))
  }

  function CheckDecision(a: Approval, decision: nat, actor: bool): Option<Error> {
    if a.status != Pending then
      Some(if decision != 0 && decision != a.version then VersionConflict else ApprovalStateConflict)
    else if !actor then Some(Forbidden)
    else None
  }

  /** The filter of the conditional update that claims a record. */
  predicate Claimable(a: Approval, decision: nat) {
    a.status == Pending && (decision > 0 ==> a.version == decision)
  }

  // ----- row updates -----

  function ReleaseOccupancies(occupancies: map<Id, Occupancy>, p: Id): map<Id, Occupancy> {
    map o | o in occupancies ::
      if !occupancies[o].deleted && occupancies[o].position == p
      then occupancies[o].(deleted := true, version := occupancies[o].version + 1)
      else occupancies[o]
  }

  /** Ends the position `p` together with its occupancy. */
  function ReleasePosition(db: Db, p: Id): Db
    requires p in db.positions
  {
    db.(positions := db.positions[p := db.positions[p].(deleted := true, version := db.positions[p].version + 1)],
        occupancies := ReleaseOccupancies(db.occupancies, p))
  }

  ghost function ReleaseDevice(db: Db, d: Id): Db {
    var p := Active(db.positions, d);
    if p.Some? then ReleasePosition(db, p.value) else db
  }

  function InsertPosition(db: Db, d: Id, at: Snapshot, position: Id, occupancy: Id): Db {
    db.(positions := db.positions[position := Position(d, at, 1, false)],
        occupancies := db.occupancies[occupancy := Occupancy(position, d, at.rack, at.startU, at.endU, 1, false)])
  }

  function SetLifecycle(devices: map<Id, Device>, d: Id, lifecycle: Lifecycle): map<Id, Device>
    requires d in devices
  {
    devices[d := devices[d].(lifecycle := lifecycle, version := devices[d].version + 1)]
  }

  function DeleteSockets(sockets: map<Id, Socket>, p: Id): map<Id, Socket> {
    map s | s in sockets ::
      if !sockets[s].deleted && sockets[s].pdu == p
      then sockets[s].(deleted := true, version := sockets[s].version + 1)
      else sockets[s]
  }

  /** Drops every live connection whose socket, live or not, belongs to the PDU. */
  function DropConnections(sockets: map<Id, Socket>, connections: map<Id, Connection>, p: Id): map<Id, Connection> {
    map c | c in connections ::
      if !connections[c].deleted && connections[c].socket in sockets && sockets[connections[c].socket].pdu == p
      then connections[c].(deleted := true, version := connections[c].version + 1)
      else connections[c]
  }

  predicate NumberTaken(sockets: map<Id, Socket>, p: Id, number: int, except: Id) {
    exists s | s in sockets :: s != except && !sockets[s].deleted && sockets[s].pdu == p && sockets[s].number == number
  }

  // ----- the writes of each transaction -----

  /** Moves the device to `at`, marks it running and records where it came from. */
  ghost function PlaceEffect(db: Db, q: Placement, at: Snapshot, from: Option<Snapshot>): Db
    requires q.device in db.devices
  {
    var moved := InsertPosition(ReleaseDevice(db, q.device), q.device, at, q.position, q.occupancy);
    moved.(devices := SetLifecycle(db.devices, q.device, Running),
           history := db.history + [HistoryEntry(q.device, q.operation, from, Some(at))])
  }

  ghost function RemoveEffect(db: Db, d: Id, from: Option<Snapshot>): Db
    requires d in db.devices
  {
    ReleaseDevice(db, d).(
      devices := SetLifecycle(db.devices, d, OffRack),
      history := db.history + [HistoryEntry(d, Decommission, from, None)])
  }

  function DecideEffect(db: Db, a: Id, status: ApprovalStatus): Db
    requires a in db.approvals
  {
    db.(approvals := db.approvals[a := db.approvals[a].(status := status, version := db.approvals[a].version + 1)])
  }

  function RetirePdu(db: Db, p: Id): Db
    requires p in db.pdus
  {
    db.(pdus := db.pdus[p := db.pdus[p].(deleted := true, version := db.pdus[p].version + 1)],
        sockets := DeleteSockets(db.sockets, p))
  }

  function ArchiveEffect(db: Db, p: Id): Db
    requires p in db.pdus
  {
    RetirePdu(db, p).(connections := DropConnections(db.sockets, db.connections, p))
  }

  function ConnectEffect(db: Db, id: Id, socket: Id, device: Id, role: Role): Db
    requires socket in db.sockets
  {
    db.(connections := db.connections[id := Connection(socket, device, role, 1, false)],
        sockets := db.sockets[socket := db.sockets[socket].(status := SocketConnected)])
  }

  function DisconnectEffect(db: Db, id: Id, socket: Id): Db
    requires id in db.connections && socket in db.sockets
  {
    var ended := db.connections[id].(deleted := true, version := db.connections[id].version + 1);
    db.(connections := db.connections[id := ended],
        sockets := db.sockets[socket := db.sockets[socket].(status := SocketAvailable)])
  }

  function NewApproval(q: Placement, rack: Id, dev: Device, source: Option<Snapshot>): Approval {
    Approval(q.device, q.operation, Pending, dev.version, source, rack, q.startU, dev.heightU,
             ResolveOrientation(q.orientation), 1)
  }

  /** The record asks for this placement. */
  predicate AsksFor(a: Approval, q: Placement) {
    && a.device == q.device && a.operation == q.operation
    && (q.target == Some(a.targetRack) || (q.target == None && q.alias == Some(a.targetRack)))
    && a.targetStartU == q.startU
    && a.targetOrientation == if q.orientation == Unspecified then Normal else q.orientation
  }

  function ApprovedPlacement(a: Approval, position: Id, occupancy: Id): Placement {
    Placement(a.device, if a.operation == Move then Move else Assign, Some(a.targetRack), None, a.targetStartU,
              a.targetOrientation, position, occupancy)
  }

  // ----- the transactions -----

  ghost function PlaceDevice(db: Db, q: Placement): Outcome {
    if !LiveDevice(db.devices, q.device) then Fail(NotFound)
    else
      var dev := db.devices[q.device];
      var refused := CheckLifecycle(dev, q.operation);
      var rackId := q.DesiredRack();
      if refused.Some? then Fail(refused.value)
      else if q.operation == Move && Powered(db.connections, q.device) then Fail(DevicePowered)
      else if rackId.None? then Fail(InvalidResource)
      else if !LiveRack(db.racks, rackId.value) then Fail(NotFound)
      else
        var rack := db.racks[rackId.value];
        var unfit := CheckRack(dev, rack, q.startU, q.orientation);
        if unfit.Some? then Fail(unfit.value)
        else if Conflict(db.occupancies, q.device, rackId.value, q.startU, q.startU + dev.heightU - 1) then
          Fail(RackUConflict)
        else if q.position in db.positions || q.occupancy in db.occupancies then Fail(StorageError)
        else
          Done(PlaceEffect(db, q, TargetSnapshot(dev, rackId.value, rack, q.startU, q.orientation),
                           ActiveAt(db.positions, q.device)))
  }

  ghost function RemoveDevice(db: Db, d: Id): Outcome {
    if !LiveDevice(db.devices, d) then Fail(NotFound)
    else if db.devices[d].lifecycle == Scrapped || db.devices[d].lifecycle == OffRack then Fail(InvalidResource)
    else if Powered(db.connections, d) then Fail(DevicePowered)
    else Done(RemoveEffect(db, d, ActiveAt(db.positions, d)))
  }

  function NewDevice(db: Db, r: Request): Outcome
    requires r.CreateDevice?
  {
    if r.givenHeight.Some? && r.givenHeight.value < 1 then Fail(InvalidResource)
    else if r.id in db.devices then Fail(StorageError)
    else
      var height := if r.givenHeight.Some? then r.givenHeight.value else r.typeHeight;
      var lifecycle := if r.given.Some? then r.given.value else WaitingRack;
      Done(db.(devices := db.devices[r.id := Device(lifecycle, height, 1, false)]))
  }

  /** The height an update writes: a missing or non-positive one keeps the height read before. */
  function UpdatedHeight(newHeight: Option<int>, existing: Device): int {
    if newHeight.Some? && newHeight.value > 0 then newHeight.value else existing.heightU
  }

  function SetHeight(db: Db, d: Id, height: int): Db
    requires d in db.devices
  {
    db.(devices := db.devices[d := db.devices[d].(heightU := height, version := db.devices[d].version + 1)])
  }

  function DropDevice(db: Db, d: Id): Db
    requires d in db.devices
  {
    db.(devices := db.devices[d := db.devices[d].(deleted := true, version := db.devices[d].version + 1)])
  }

  ghost function EditDevice(db: Db, d: Id, expected: nat, newHeight: Option<int>): Outcome {
    if !LiveDevice(db.devices, d) then Fail(NotFound)
    else
      var height := UpdatedHeight(newHeight, db.devices[d]);
      if height != db.devices[d].heightU && Active(db.positions, d).Some? then Fail(DevicePositioned)
      else if db.devices[d].version != expected then Fail(VersionConflict)
      else Done(SetHeight(db, d, height))
  }

  ghost function EraseDevice(db: Db, d: Id, expected: nat): Outcome {
    if !LiveDevice(db.devices, d) then Fail(NotFound)
    else if Active(db.positions, d).Some? then Fail(DevicePositioned)
    else if db.devices[d].version != expected then Fail(VersionConflict)
    else Done(DropDevice(db, d))
  }

  function NewRack(db: Db, r: Request): Outcome
    requires r.CreateRack?
  {
    if r.id in db.racks then Fail(StorageError)
    else Done(db.(racks := db.racks[r.id := Rack(r.status, r.uHeight, r.room, r.dataCenter, 1, false)]))
  }

  function SetRack(db: Db, r: Id, status: RackStatus, uHeight: int): Db
    requires r in db.racks
  {
    db.(racks := db.racks[r := db.racks[r].(status := status, uHeight := uHeight, version := db.racks[r].version + 1)])
  }

  function DropRack(db: Db, r: Id): Db
    requires r in db.racks
  {
    db.(racks := db.racks[r := db.racks[r].(deleted := true, version := db.racks[r].version + 1)])
  }

  function EditRack(db: Db, r: Request): Outcome
    requires r.UpdateRack?
  {
    if !LiveRack(db.racks, r.id) then Fail(NotFound)
    else if db.racks[r.id].version != r.expected then Fail(VersionConflict)
    else Done(SetRack(db, r.id, r.status, r.uHeight))
  }

  ghost function EraseRack(db: Db, r: Id, expected: nat): Outcome {
    if !LiveRack(db.racks, r) then Fail(NotFound)
    else if HasPositions(db.positions, r) || HasPdus(db.pdus, r) then Fail(HasChildren)
    else if db.racks[r].version != expected then Fail(VersionConflict)
    else Done(DropRack(db, r))
  }

  function NewPdu(db: Db, p: Id, rack: Id): Outcome {
    if !LiveRack(db.racks, rack) then Fail(NotFound)
    else if p in db.pdus then Fail(StorageError)
    else Done(db.(pdus := db.pdus[p := Pdu(rack, 1, false)]))
  }

  /** An edit of the descriptive fields moves the version on. */
  function EditPdu(db: Db, p: Id): Outcome {
    if !LivePdu(db.pdus, p) then Fail(NotFound) else Done(BumpPdu(db, p))
  }

  function BumpPdu(db: Db, p: Id): Db
    requires p in db.pdus
  {
    db.(pdus := db.pdus[p := db.pdus[p].(version := db.pdus[p].version + 1)])
  }

  function ErasePdu(db: Db, p: Id, expected: nat): Outcome {
    if !LivePdu(db.pdus, p) then Fail(NotFound)
    else if Impact(db.sockets, db.connections, p) != {} then Fail(PduInUse)
    else if db.pdus[p].version != expected then Fail(VersionConflict)
    else Done(RetirePdu(db, p))
  }

  function ArchivePdu(db: Db, r: Request): Outcome
    requires r.ForceArchive?
  {
    if !r.reasonGiven then Fail(InvalidResource)
    else if !LivePdu(db.pdus, r.id) then Fail(NotFound)
    else if r.confirmed != |Impact(db.sockets, db.connections, r.id)| then Fail(ConfirmationRequired)
    else if db.pdus[r.id].version != r.expected then Fail(VersionConflict)
    else Done(ArchiveEffect(db, r.id))
  }

  function NewSocket(db: Db, s: Id, p: Id, number: int): Outcome {
    if !LivePdu(db.pdus, p) then Fail(NotFound)
    else if s in db.sockets then Fail(StorageError)
    else if NumberTaken(db.sockets, p, number, s) then Fail(DuplicateCode)
    else Done(db.(sockets := db.sockets[s := Socket(p, number, SocketAvailable, 1, false)]))
  }

  function Renumber(db: Db, s: Id, number: int): Db
    requires s in db.sockets
  {
    db.(sockets := db.sockets[s := db.sockets[s].(number := number, version := db.sockets[s].version + 1)])
  }

  function EditSocket(db: Db, s: Id, number: int): Outcome {
    if !LiveSocket(db.sockets, s) || !LivePdu(db.pdus, db.sockets[s].pdu) then Fail(NotFound)
    else if NumberTaken(db.sockets, db.sockets[s].pdu, number, s) then Fail(DuplicateCode)
    else Done(Renumber(db, s, number))
  }

  function DropSocket(db: Db, s: Id): Db
    requires s in db.sockets
  {
    db.(sockets := db.sockets[s := db.sockets[s].(deleted := true, version := db.sockets[s].version + 1)])
  }

  ghost function EraseSocket(db: Db, s: Id, expected: nat): Outcome {
    if !LiveSocket(db.sockets, s) || !LivePdu(db.pdus, db.sockets[s].pdu) then Fail(NotFound)
    else if SocketInUse(db.connections, s) then Fail(SocketBusy)
    else if db.sockets[s].version != expected then Fail(VersionConflict)
    else Done(DropSocket(db, s))
  }

  ghost function ConnectDevice(db: Db, r: Request): Outcome
    requires r.Connect?
  {
    if !LiveSocket(db.sockets, r.socket) || !LiveDevice(db.devices, r.device) then Fail(NotFound)
    else
      var sock := db.sockets[r.socket];
      if !LivePdu(db.pdus, sock.pdu) then Fail(NotFound)
      else if sock.status == SocketConnected then Fail(SocketBusy)
      else
        var at := ActiveAt(db.positions, r.device);
        var role := ResolveRole(r.role);
        if at.None? then Fail(DeviceNotPositioned)
        else if at.value.rack != db.pdus[sock.pdu].rack then Fail(RackMismatch)
        else if role.UnknownRole? then Fail(InvalidResource)
        else if RoleTaken(db.connections, r.device, role) then Fail(SocketBusy)
        else if r.id in db.connections then Fail(StorageError)
        else Done(ConnectEffect(db, r.id, r.socket, r.device, role))
  }

  function DisconnectDevice(db: Db, c: Id, expected: nat): Outcome {
    if !LiveConnection(db.connections, c) then Fail(NotFound)
    else
      var s := db.connections[c].socket;
      if !LiveSocket(db.sockets, s) || !LivePdu(db.pdus, db.sockets[s].pdu) then Fail(NotFound)
      else if db.connections[c].version != expected then Fail(VersionConflict)
      else Done(DisconnectEffect(db, c, s))
  }

  ghost function SubmitApproval(db: Db, id: Id, q: Placement): Outcome {
    if !LiveDevice(db.devices, q.device) then Fail(NotFound)
    else if q.DesiredRack().None? then Fail(InvalidResource)
    else if id in db.approvals || q.DesiredRack().value !in db.racks then Fail(StorageError)
    else
      var a := NewApproval(q, q.DesiredRack().value, db.devices[q.device], ActiveAt(db.positions, q.device));
      Done(db.(approvals := db.approvals[id := a]))
  }

  ghost function ApproveRequest(db: Db, r: Request): Outcome
    requires r.Approve?
  {
    if r.id !in db.approvals then Fail(NotFound)
    else
      var a := db.approvals[r.id];
      var refused := CheckDecision(a, r.decision, r.actor);
      if refused.Some? then Fail(refused.value)
      else if !Claimable(a, r.decision) then Fail(VersionConflict)
      else if !LiveDevice(db.devices, a.device) then Fail(NotFound)
      else if a.requestedVersion != 0 && db.devices[a.device].version != a.requestedVersion then Fail(VersionConflict)
      else PlaceDevice(DecideEffect(db, r.id, Approved), ApprovedPlacement(a, r.position, r.occupancy))
  }

  function RejectRequest(db: Db, r: Request): Outcome
    requires r.Reject?
  {
    if r.id !in db.approvals then Fail(NotFound)
    else
      var a := db.approvals[r.id];
      var refused := CheckDecision(a, r.decision, r.actor);
      if refused.Some? then Fail(refused.value)
      else if !Claimable(a, r.decision) then Fail(VersionConflict)
      else Done(DecideEffect(db, r.id, Rejected))
  }

  /** One transaction on a quiet database: its new tables, or the error that leaves them as they were. */
  ghost function Apply(db: Db, r: Request): Outcome {
    match r
    case CreateDevice(_, _, _, _) => NewDevice(db, r)
    case UpdateDevice(d, expected, newHeight) => EditDevice(db, d, expected, newHeight)
    case DeleteDevice(d, expected) => EraseDevice(db, d, expected)
    case Place(q) => PlaceDevice(db, q)
    case Remove(d) => RemoveDevice(db, d)
    case CreateRack(_, _, _, _, _) => NewRack(db, r)
    case UpdateRack(_, _, _, _) => EditRack(db, r)
    case DeleteRack(id, expected) => EraseRack(db, id, expected)
    case CreatePdu(p, rack) => NewPdu(db, p, rack)
    case UpdatePdu(p) => EditPdu(db, p)
    case DeletePdu(p, expected) => ErasePdu(db, p, expected)
    case ForceArchive(_, _, _, _) => ArchivePdu(db, r)
    case CreateSocket(s, p, number) => NewSocket(db, s, p, number)
    case UpdateSocket(s, number) => EditSocket(db, s, number)
    case DeleteSocket(s, expected) => EraseSocket(db, s, expected)
    case Connect(_, _, _, _) => ConnectDevice(db, r)
    case Disconnect(c, expected) => DisconnectDevice(db, c, expected)
    case Submit(id, q) => SubmitApproval(db, id, q)
    case Approve(_, _, _, _, _) => ApproveRequest(db, r)
    case Reject(_, _, _) => RejectRequest(db, r)
  }
}
