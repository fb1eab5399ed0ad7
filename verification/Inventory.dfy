// The tables of the rack inventory and the invariant that its transactions keep.
//
// A table is a map from row identifier to row. Rows are never removed: a deletion
// sets `deleted`, and every query below looks at live rows only.

module Wrappers {
  datatype Option<+T> = None | Some(value: T)
}

module Inventory {
  import opened Wrappers

  type Id = nat

  datatype Lifecycle =
    | WaitingRack | Running | Maintenance | PendingRemoval | OffRack | Scrapped | CustomLifecycle(text: string)

  datatype RackStatus = Available | Planning | Partial | Full | RackMaintenance | Disabled | CustomStatus(text: string)

  datatype Orientation = Unspecified | Normal | Reverse | UnknownOrientation(text: string)

  datatype Role = DefaultRole | Primary | Standby | UnknownRole(text: string)

  datatype SocketStatus = SocketAvailable | SocketConnected

  datatype ApprovalStatus = Pending | Approved | Rejected

  datatype Operation = Assign | Move | Decommission

  datatype Device = Device(lifecycle: Lifecycle, heightU: int, version: nat, deleted: bool)

  datatype Rack = Rack(status: RackStatus, uHeight: int, room: Id, dataCenter: Id, version: nat, deleted: bool)

  /** Where a device sits; room and data centre are copied from the rack when the device is placed. */
  datatype Snapshot = Snapshot(
    rack: Id, room: Id, dataCenter: Id, startU: int, heightU: int, endU: int, orientation: Orientation)

  datatype Position = Position(device: Id, at: Snapshot, version: nat, deleted: bool)

  datatype Occupancy = Occupancy(
    position: Id, device: Id, rack: Id, startU: int, endU: int, version: nat, deleted: bool)

  datatype Pdu = Pdu(rack: Id, version: nat, deleted: bool)

  datatype Socket = Socket(pdu: Id, number: int, status: SocketStatus, version: nat, deleted: bool)

  datatype Connection = Connection(socket: Id, device: Id, role: Role, version: nat, deleted: bool)

  datatype Approval = Approval(
    device: Id, operation: Operation, status: ApprovalStatus, requestedVersion: nat, source: Option<Snapshot>,
    targetRack: Id, targetStartU: int, targetHeightU: int, targetOrientation: Orientation, version: nat)

  datatype HistoryEntry = HistoryEntry(
    device: Id, operation: Operation, from: Option<Snapshot>, to: Option<Snapshot>)

  datatype Db = Db(
    devices: map<Id, Device>,
    racks: map<Id, Rack>,
    positions: map<Id, Position>,
    occupancies: map<Id, Occupancy>,
    pdus: map<Id, Pdu>,
    sockets: map<Id, Socket>,
    connections: map<Id, Connection>,
    approvals: map<Id, Approval>,
    history: seq<HistoryEntry>)

  const EMPTY_DB := Db(map[], map[], map[], map[], map[], map[], map[], map[], [])

  // ----- queries -----

  predicate LiveDevice(devices: map<Id, Device>, d: Id) {
    d in devices && !devices[d].deleted
  }

  predicate LiveRack(racks: map<Id, Rack>, r: Id) {
    r in racks && !racks[r].deleted
  }

  predicate LivePdu(pdus: map<Id, Pdu>, p: Id) {
    p in pdus && !pdus[p].deleted
  }

  predicate LiveSocket(sockets: map<Id, Socket>, s: Id) {
    s in sockets && !sockets[s].deleted
  }

  predicate LiveConnection(connections: map<Id, Connection>, c: Id) {
    c in connections && !connections[c].deleted
  }

  predicate LivePosition(positions: map<Id, Position>, p: Id) {
    p in positions && !positions[p].deleted
  }

  predicate LiveOccupancy(occupancies: map<Id, Occupancy>, o: Id) {
    o in occupancies && !occupancies[o].deleted
  }

  /** `p` is a live position of device `d`. */
  predicate Holds(positions: map<Id, Position>, p: Id, d: Id) {
    LivePosition(positions, p) && positions[p].device == d
  }

  /** The first live position of a device, if it has one. */
  ghost function Active(positions: map<Id, Position>, d: Id): (r: Option<Id>)
    ensures r.Some? ==> Holds(positions, r.value, d)
    ensures r.None? ==> forall p :: !Holds(positions, p, d)
  {
    if exists p :: Holds(positions, p, d) then
      var p :| Holds(positions, p, d);
      Some(p)
    else
      None
  }

  ghost function ActiveAt(positions: map<Id, Position>, d: Id): (r: Option<Snapshot>)
  {
    var p := Active(positions, d);
    if p.Some? then Some(positions[p.value].at) else None
  }

  predicate RangesOverlap(aStart: int, aEnd: int, bStart: int, bEnd: int) {
    aStart <= bEnd && bStart <= aEnd
  }

  /** The device has a live power connection. */
  ghost predicate Powered(connections: map<Id, Connection>, d: Id) {
    exists c :: LiveConnection(connections, c) && connections[c].device == d
  }

  ghost predicate RoleTaken(connections: map<Id, Connection>, d: Id, role: Role) {
    exists c :: LiveConnection(connections, c) && connections[c].device == d && connections[c].role == role
  }

  ghost predicate SocketInUse(connections: map<Id, Connection>, s: Id) {
    exists c :: LiveConnection(connections, c) && connections[c].socket == s
  }

  /** The live connections that run through a live socket of the PDU. */
  function Impact(sockets: map<Id, Socket>, connections: map<Id, Connection>, p: Id): set<Id> {
    set c | c in connections && !connections[c].deleted
            && LiveSocket(sockets, connections[c].socket) && sockets[connections[c].socket].pdu == p
  }

  /** Another device's live occupancy of the rack meets the U range. */
  ghost predicate Conflict(occupancies: map<Id, Occupancy>, d: Id, rack: Id, startU: int, endU: int) {
    exists o :: LiveOccupancy(occupancies, o) && occupancies[o].rack == rack && occupancies[o].device != d
                && RangesOverlap(startU, endU, occupancies[o].startU, occupancies[o].endU)
  }

  ghost predicate HasPositions(positions: map<Id, Position>, rack: Id) {
    exists p :: LivePosition(positions, p) && positions[p].at.rack == rack
  }

  ghost predicate HasPdus(pdus: map<Id, Pdu>, rack: Id) {
    exists p :: LivePdu(pdus, p) && pdus[p].rack == rack
  }

  /** The destination of the device's last history entry. */
  function LastTo(history: seq<HistoryEntry>, d: Id): Option<Snapshot> {
    if history == [] then None
    else if history[|history| - 1].device == d then history[|history| - 1].to
    else LastTo(history[..|history| - 1], d)
  }

  // ----- the invariant, table by table -----

  /** `at` is where the device really sits: `None` exactly when it has no live position. */
  ghost predicate SitsAt(positions: map<Id, Position>, d: Id, at: Option<Snapshot>) {
    match at
    case None => forall p :: !Holds(positions, p, d)
    case Some(s) => exists p :: Holds(positions, p, d) && positions[p].at == s
  }

  ghost predicate DevicesOk(devices: map<Id, Device>) {
    forall d :: d in devices ==> 1 <= devices[d].version
  }

  /** A live position belongs to a live running device of its height, in a live rack. */
  ghost predicate PositionsOk(devices: map<Id, Device>, racks: map<Id, Rack>, positions: map<Id, Position>) {
    forall p :: LivePosition(positions, p) ==>
      && LiveDevice(devices, positions[p].device)
      && devices[positions[p].device].lifecycle == Running
      && devices[positions[p].device].heightU == positions[p].at.heightU
      && LiveRack(racks, positions[p].at.rack)
      && 1 <= positions[p].at.startU
      && 1 <= positions[p].at.heightU
      && positions[p].at.endU == positions[p].at.startU + positions[p].at.heightU - 1
  }

  ghost predicate OnePosition(positions: map<Id, Position>) {
    forall p, q | LivePosition(positions, p) && LivePosition(positions, q)
                  && positions[p].device == positions[q].device :: p == q
  }

  /** The occupancy `o` is the live image of position `p`. */
  ghost predicate Mirrors(positions: map<Id, Position>, occupancies: map<Id, Occupancy>, o: Id, p: Id) {
    && LiveOccupancy(occupancies, o)
    && LivePosition(positions, p)
    && occupancies[o].position == p
    && occupancies[o].device == positions[p].device
    && occupancies[o].rack == positions[p].at.rack
    && occupancies[o].startU == positions[p].at.startU
    && occupancies[o].endU == positions[p].at.endU
  }

  /** Live occupancies and live positions correspond one to one. */
  ghost predicate MirrorOk(positions: map<Id, Position>, occupancies: map<Id, Occupancy>) {
    && (forall o :: LiveOccupancy(occupancies, o) ==> Mirrors(positions, occupancies, o, occupancies[o].position))
    && (forall p :: LivePosition(positions, p) ==> exists o :: Mirrors(positions, occupancies, o, p))
    && (forall o, o' | LiveOccupancy(occupancies, o) && LiveOccupancy(occupancies, o')
                       && occupancies[o].position == occupancies[o'].position :: o == o')
  }

  /** No two live occupancies of one rack overlap. */
  ghost predicate DisjointOk(occupancies: map<Id, Occupancy>) {
    forall o, o' | LiveOccupancy(occupancies, o) && LiveOccupancy(occupancies, o') && o != o'
                   && occupancies[o].rack == occupancies[o'].rack ::
      !RangesOverlap(occupancies[o].startU, occupancies[o].endU, occupancies[o'].startU, occupancies[o'].endU)
  }

  ghost predicate PdusOk(racks: map<Id, Rack>, pdus: map<Id, Pdu>) {
    forall p :: LivePdu(pdus, p) ==> LiveRack(racks, pdus[p].rack)
  }

  ghost predicate SocketsOk(pdus: map<Id, Pdu>, sockets: map<Id, Socket>) {
    && (forall s :: LiveSocket(sockets, s) ==> LivePdu(pdus, sockets[s].pdu))
    && (forall s, s' | LiveSocket(sockets, s) && LiveSocket(sockets, s') && sockets[s].pdu == sockets[s'].pdu
                       && sockets[s].number == sockets[s'].number :: s == s')
  }

  /** The device sits in the rack. */
  ghost predicate SitsIn(positions: map<Id, Position>, d: Id, rack: Id) {
    exists p :: Holds(positions, p, d) && positions[p].at.rack == rack
  }

  /** A live connection joins a live connected socket to a device placed in the rack of the socket's PDU. */
  ghost predicate ConnectionsOk(
    positions: map<Id, Position>, pdus: map<Id, Pdu>, sockets: map<Id, Socket>, connections: map<Id, Connection>)
  {
    forall c :: LiveConnection(connections, c) ==>
      && LiveSocket(sockets, connections[c].socket)
      && sockets[connections[c].socket].status == SocketConnected
      && LivePdu(pdus, sockets[connections[c].socket].pdu)
      && SitsIn(positions, connections[c].device, pdus[sockets[connections[c].socket].pdu].rack)
  }

  /** A connected socket has a connection; no socket has two and no device has two in one role. */
  ghost predicate StatusOk(sockets: map<Id, Socket>, connections: map<Id, Connection>) {
    && (forall s :: LiveSocket(sockets, s) && sockets[s].status == SocketConnected ==> SocketInUse(connections, s))
    && (forall c, c' | LiveConnection(connections, c) && LiveConnection(connections, c')
                       && connections[c].socket == connections[c'].socket :: c == c')
    && (forall c, c' | LiveConnection(connections, c) && LiveConnection(connections, c')
                       && connections[c].device == connections[c'].device
                       && connections[c].role == connections[c'].role :: c == c')
  }

  /** What a record says of its device still holds while the device's version is the requested one. */
  ghost predicate Admissible(devices: map<Id, Device>, positions: map<Id, Position>, a: Approval) {
    && a.device in devices
    && 1 <= a.requestedVersion <= devices[a.device].version
    && (a.requestedVersion == devices[a.device].version ==>
          a.targetHeightU == devices[a.device].heightU && SitsAt(positions, a.device, a.source))
  }

  ghost predicate ApprovalsOk(devices: map<Id, Device>, positions: map<Id, Position>, approvals: map<Id, Approval>) {
    && (forall a :: a in approvals ==> Admissible(devices, positions, approvals[a]))
    && (forall a :: a in approvals && approvals[a].status == Approved ==>
          approvals[a].requestedVersion < devices[approvals[a].device].version)
    && (forall a, a' | a in approvals && a' in approvals
                       && approvals[a].status == Approved && approvals[a'].status == Approved
                       && approvals[a].device == approvals[a'].device
                       && approvals[a].requestedVersion == approvals[a'].requestedVersion :: a == a')
  }

  /** Each entry starts where the device's previous entry ended. */
  ghost predicate Chained(history: seq<HistoryEntry>) {
    forall i :: 0 <= i < |history| ==> history[i].from == LastTo(history[..i], history[i].device)
  }

  /** Replaying a device's history leads to where it sits. */
  ghost predicate HistoryOk(devices: map<Id, Device>, positions: map<Id, Position>, history: seq<HistoryEntry>) {
    && Chained(history)
    && (forall i :: 0 <= i < |history| ==> history[i].device in devices)
    && (forall d :: d in devices ==> SitsAt(positions, d, LastTo(history, d)))
  }

  /** The part of the invariant about positions and their occupancies. */
  ghost predicate LayoutOk(
    devices: map<Id, Device>, racks: map<Id, Rack>, positions: map<Id, Position>, occupancies: map<Id, Occupancy>)
  {
    && PositionsOk(devices, racks, positions)
    && OnePosition(positions)
    && MirrorOk(positions, occupancies)
    && DisjointOk(occupancies)
  }

  /** The part of the invariant about power distribution. */
  ghost predicate PowerOk(
    racks: map<Id, Rack>, positions: map<Id, Position>,
    pdus: map<Id, Pdu>, sockets: map<Id, Socket>, connections: map<Id, Connection>)
  {
    && PdusOk(racks, pdus)
    && SocketsOk(pdus, sockets)
    && ConnectionsOk(positions, pdus, sockets, connections)
    && StatusOk(sockets, connections)
  }

  /** The part of the invariant about approval records and position history. */
  ghost predicate RecordsOk(
    devices: map<Id, Device>, positions: map<Id, Position>, approvals: map<Id, Approval>, history: seq<HistoryEntry>)
  {
    && DevicesOk(devices)
    && ApprovalsOk(devices, positions, approvals)
    && HistoryOk(devices, positions, history)
  }

  ghost predicate Inv(db: Db) {
    && LayoutOk(db.devices, db.racks, db.positions, db.occupancies)
    && PowerOk(db.racks, db.positions, db.pdus, db.sockets, db.connections)
    && RecordsOk(db.devices, db.positions, db.approvals, db.history)
  }
}
