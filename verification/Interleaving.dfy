// Transactions that run concurrently under row locks.
//
// A transaction follows a script: plain reads, which see the latest committed rows; locking
// reads, which wait for the row and then re-read it; and a last step that publishes all its
// writes at once. Between any two steps other transactions may run.

module Interleaving {
  import opened Wrappers
  import opened Inventory
  import opened Transactions

  type Tid = nat

  datatype Key = ApprovalKey(id: Id) | DeviceKey(id: Id) | RackKey(id: Id) | PduKey(id: Id) | SocketKey(id: Id)
  {
    /** The order in which transactions take locks. */
    function Rank(): nat {
      match this
      case ApprovalKey(_) => 0
      case DeviceKey(_) => 1
      case RackKey(_) => 2
      case PduKey(_) => 3
      case SocketKey(_) => 4
    }
  }

  datatype Instr =
    // plain reads that locate rows
    | FetchSocket | FetchConnection | FetchApproval | FetchDevice | FetchRack | FetchPdu
    // locking reads
    | LockDevice | LockRack | LockPdu | LockSocket
    // conditional updates: they lock the row and test their filter on it
    | ClaimApproval | CasDevice | CasRack | CasPdu
    // plain reads
    | CountDeviceConnections | CountSocketConnections | CountPduConnections | CountRackPositions | CountRackPdus
    | ReadOccupancies | ReadPosition | ReadRole
    // writes and commit
    | Commit

  /** What a transaction has read so far. */
  datatype Locals = Locals(
    socket: Option<Socket>, connection: Option<Connection>, record: Option<Approval>,
    device: Option<Device>, rack: Option<Rack>, pdu: Option<Pdu>, at: Option<Option<Snapshot>>)

  const NOTHING_READ := Locals(None, None, None, None, None, None, None)

  const NO_PLACEMENT := Placement(0, Assign, None, None, 0, Unspecified, 0, 0)

  function Script(r: Request): (s: seq<Instr>)
    ensures |s| > 0 && s[|s| - 1] == Commit
  {
    match r
    case CreateDevice(_, _, _, _) => [Commit]
    case UpdateDevice(_, _, _) => [FetchDevice, ReadPosition, CasDevice, Commit]
    case DeleteDevice(_, _) => [FetchDevice, ReadPosition, CasDevice, Commit]
    case Place(_) => [LockDevice, CountDeviceConnections, LockRack, ReadOccupancies, ReadPosition, Commit]
    case Remove(_) => [LockDevice, CountDeviceConnections, ReadPosition, Commit]
    case CreateRack(_, _, _, _, _) => [Commit]
    case UpdateRack(_, _, _, _) => [FetchRack, CasRack, Commit]
    case DeleteRack(_, _) => [LockRack, CountRackPositions, CountRackPdus, Commit]
    case CreatePdu(_, _) => [LockRack, Commit]
    case UpdatePdu(_) => [FetchPdu, CasPdu, Commit]
    case DeletePdu(_, _) => [LockPdu, CountPduConnections, Commit]
    case ForceArchive(_, _, _, _) => [LockPdu, CountPduConnections, Commit]
    case CreateSocket(_, _, _) => [LockPdu, Commit]
    case UpdateSocket(_, _) => [FetchSocket, LockPdu, LockSocket, Commit]
    case DeleteSocket(_, _) => [FetchSocket, LockPdu, LockSocket, CountSocketConnections, Commit]
    case Connect(_, _, _, _) => [FetchSocket, LockDevice, LockPdu, LockSocket, ReadPosition, ReadRole, Commit]
    case Disconnect(_, _) => [FetchConnection, FetchSocket, LockPdu, LockSocket, Commit]
    case Submit(_, _) => [FetchDevice, ReadPosition, Commit]
    case Approve(_, _, _, _, _) =>
      [FetchApproval, ClaimApproval, LockDevice, CountDeviceConnections, LockRack, ReadOccupancies, ReadPosition,
       Commit]
    case Reject(_, _, _) => [FetchApproval, ClaimApproval, Commit]
  }

  // ----- the rows a transaction works on -----

  function PlacementOf(r: Request, l: Locals): Placement {
    match r
    case Place(q) => q
    case Submit(_, q) => q
    case Approve(_, _, _, position, occupancy) =>
      if l.record.Some? then ApprovedPlacement(l.record.value, position, occupancy) else NO_PLACEMENT
    case _ => NO_PLACEMENT
  }

  function DeviceOf(r: Request, l: Locals): Id {
    match r
    case UpdateDevice(d, _, _) => d
    case DeleteDevice(d, _) => d
    case Remove(d) => d
    case Connect(_, _, d, _) => d
    case _ => PlacementOf(r, l).device
  }

  function RackOf(r: Request, l: Locals): Option<Id> {
    match r
    case CreatePdu(_, rack) => Some(rack)
    case UpdateRack(id, _, _, _) => Some(id)
    case DeleteRack(id, _) => Some(id)
    case _ => PlacementOf(r, l).DesiredRack()
  }

  function SocketOf(r: Request, l: Locals): Option<Id> {
    match r
    case Connect(_, s, _, _) => Some(s)
    case UpdateSocket(s, _) => Some(s)
    case DeleteSocket(s, _) => Some(s)
    case _ => if l.connection.Some? then Some(l.connection.value.socket) else None
  }

  function PduOf(r: Request, l: Locals): Option<Id> {
    match r
    case CreateSocket(_, p, _) => Some(p)
    case UpdatePdu(p) => Some(p)
    case DeletePdu(p, _) => Some(p)
    case ForceArchive(p, _, _, _) => Some(p)
    case _ => if l.socket.Some? then Some(l.socket.value.pdu) else None
  }

  /** The row lock an instruction takes. */
  function KeyOf(r: Request, i: Instr, l: Locals): Option<Key> {
    match i
    case LockDevice => Some(DeviceKey(DeviceOf(r, l)))
    case CasDevice => Some(DeviceKey(DeviceOf(r, l)))
    case LockRack => if RackOf(r, l).Some? then Some(RackKey(RackOf(r, l).value)) else None
    case CasRack => if RackOf(r, l).Some? then Some(RackKey(RackOf(r, l).value)) else None
    case CasPdu => if PduOf(r, l).Some? then Some(PduKey(PduOf(r, l).value)) else None
    case LockPdu => if PduOf(r, l).Some? then Some(PduKey(PduOf(r, l).value)) else None
    case LockSocket => if SocketOf(r, l).Some? then Some(SocketKey(SocketOf(r, l).value)) else None
    case ClaimApproval => if r.Approve? || r.Reject? then Some(ApprovalKey(r.id)) else None
    case _ => None
  }

  // ----- what an instruction does -----

  predicate DeviceFits(r: Request, l: Locals, dev: Device) {
    match r
    case Place(q) => CheckLifecycle(dev, q.operation).None?
    case Remove(_) => dev.lifecycle != Scrapped && dev.lifecycle != OffRack
    case Approve(_, _, _, _, _) =>
      && l.record.Some?
      && (l.record.value.requestedVersion != 0 ==> dev.version == l.record.value.requestedVersion)
      && CheckLifecycle(dev, PlacementOf(r, l).operation).None?
    case _ => true
  }

  predicate RackFits(r: Request, l: Locals, rack: Rack) {
    r.Place? || r.Approve? ==>
      l.device.Some? && CheckRack(l.device.value, rack, PlacementOf(r, l).startU, PlacementOf(r, l).orientation).None?
  }

  predicate NeedsPowerCheck(r: Request, l: Locals) {
    r.Remove? || PlacementOf(r, l).operation == Move
  }

  /** An update that does not name a height does not look at the position. */
  predicate ReadsPosition(r: Request) {
    r.UpdateDevice? ==> r.newHeight.Some? && r.newHeight.value > 0
  }

  predicate PositionFits(r: Request, l: Locals, at: Option<Snapshot>) {
    match r
    case UpdateDevice(_, _, newHeight) =>
      at.Some? && newHeight.Some? ==> l.device.Some? && newHeight.value == l.device.value.heightU
    case DeleteDevice(_, _) => at.None?
    case Connect(_, _, _, _) => at.Some? && l.pdu.Some? && at.value.rack == l.pdu.value.rack
    case _ => true
  }

  predicate ImpactFits(r: Request, impact: set<Id>) {
    match r
    case DeletePdu(_, _) => impact == {}
    case ForceArchive(_, _, reasonGiven, confirmed) => reasonGiven && confirmed == |impact|
    case _ => true
  }

  function EndOf(r: Request, l: Locals): int {
    PlacementOf(r, l).startU + (if l.device.Some? then l.device.value.heightU else 0) - 1
  }

  /** The locals after an instruction on the committed tables, or `None` if the transaction gives up. */
  ghost function Execute(db: Db, r: Request, i: Instr, l: Locals): Option<Locals> {
    match i
    case FetchSocket =>
      if SocketOf(r, l).Some? && LiveSocket(db.sockets, SocketOf(r, l).value)
      then Some(l.(socket := Some(db.sockets[SocketOf(r, l).value]))) else None
    case FetchConnection =>
      if r.Disconnect? && LiveConnection(db.connections, r.id)
      then Some(l.(connection := Some(db.connections[r.id]))) else None
    case FetchApproval =>
      if (r.Approve? || r.Reject?) && r.id in db.approvals
         && CheckDecision(db.approvals[r.id], r.decision, r.actor).None?
      then Some(l.(record := Some(db.approvals[r.id]))) else None
    case FetchDevice =>
      if LiveDevice(db.devices, DeviceOf(r, l)) then Some(l.(device := Some(db.devices[DeviceOf(r, l)]))) else None
    case FetchRack =>
      if RackOf(r, l).Some? && LiveRack(db.racks, RackOf(r, l).value) then Some(l) else None
    case LockDevice =>
      var d := DeviceOf(r, l);
      if LiveDevice(db.devices, d) && DeviceFits(r, l, db.devices[d])
      then Some(l.(device := Some(db.devices[d]))) else None
    case LockRack =>
      var k := RackOf(r, l);
      if k.Some? && LiveRack(db.racks, k.value) && RackFits(r, l, db.racks[k.value])
      then Some(l.(rack := Some(db.racks[k.value]))) else None
    case LockPdu =>
      var p := PduOf(r, l);
      if p.Some? && LivePdu(db.pdus, p.value) then Some(l.(pdu := Some(db.pdus[p.value]))) else None
    case LockSocket =>
      var s := SocketOf(r, l);
      if s.Some? && LiveSocket(db.sockets, s.value) && (r.Connect? ==> db.sockets[s.value].status != SocketConnected)
      then Some(l.(socket := Some(db.sockets[s.value]))) else None
    case ClaimApproval =>
      if (r.Approve? || r.Reject?) && r.id in db.approvals && Claimable(db.approvals[r.id], r.decision)
      then Some(l) else None
    case CasDevice =>
      if (r.UpdateDevice? || r.DeleteDevice?) && LiveDevice(db.devices, r.id) && db.devices[r.id].version == r.expected
      then Some(l) else None
    case FetchPdu =>
      var p := PduOf(r, l);
      if p.Some? && LivePdu(db.pdus, p.value) then Some(l.(pdu := Some(db.pdus[p.value]))) else None
    case CasPdu =>
      if r.UpdatePdu? && l.pdu.Some? && LivePdu(db.pdus, r.id) && db.pdus[r.id].version == l.pdu.value.version
      then Some(l) else None
    case CasRack =>
      if r.UpdateRack? && LiveRack(db.racks, r.id) && db.racks[r.id].version == r.expected then Some(l) else None
    case CountDeviceConnections =>
      if NeedsPowerCheck(r, l) && Powered(db.connections, DeviceOf(r, l)) then None else Some(l)
    case CountSocketConnections =>
      if SocketOf(r, l).Some? && !SocketInUse(db.connections, SocketOf(r, l).value) then Some(l) else None
    case CountPduConnections =>
      if PduOf(r, l).Some? && ImpactFits(r, Impact(db.sockets, db.connections, PduOf(r, l).value))
      then Some(l) else None
    case CountRackPositions =>
      if RackOf(r, l).Some? && !HasPositions(db.positions, RackOf(r, l).value) then Some(l) else None
    case CountRackPdus =>
      if RackOf(r, l).Some? && !HasPdus(db.pdus, RackOf(r, l).value) then Some(l) else None
    case ReadOccupancies =>
      if RackOf(r, l).Some?
         && !Conflict(db.occupancies, DeviceOf(r, l), RackOf(r, l).value, PlacementOf(r, l).startU, EndOf(r, l))
      then Some(l) else None
    case ReadPosition =>
      if !ReadsPosition(r) then Some(l)
      else
        var at := ActiveAt(db.positions, DeviceOf(r, l));
        if PositionFits(r, l, at) then Some(l.(at := Some(at))) else None
    case ReadRole =>
      if r.Connect? && !ResolveRole(r.role).UnknownRole? && !RoleTaken(db.connections, r.device, ResolveRole(r.role))
      then Some(l) else None
    case Commit => None
  }

  /** The tables a transaction publishes: its writes are computed from what it read on the way. */
  ghost function Publish(db: Db, r: Request, l: Locals): Outcome {
    match r
    case CreateDevice(_, _, _, _) => NewDevice(db, r)
    case CreateRack(_, _, _, _, _) => NewRack(db, r)
    case UpdateDevice(d, _, newHeight) =>
      if d in db.devices && l.device.Some? then Done(SetHeight(db, d, UpdatedHeight(newHeight, l.device.value)))
      else Fail(NotFound)
    case DeleteDevice(d, _) => if d in db.devices then Done(DropDevice(db, d)) else Fail(NotFound)
    case Place(q) => PublishPlacement(db, q, l)
    case Remove(d) =>
      if d in db.devices && l.at.Some? then Done(RemoveEffect(db, d, l.at.value)) else Fail(NotFound)
    case UpdateRack(id, _, status, uHeight) =>
      if id in db.racks then Done(SetRack(db, id, status, uHeight)) else Fail(NotFound)
    case DeleteRack(id, expected) =>
      if LiveRack(db.racks, id) && db.racks[id].version == expected then Done(DropRack(db, id))
      else Fail(VersionConflict)
    case CreatePdu(p, rack) =>
      if p in db.pdus then Fail(StorageError) else Done(db.(pdus := db.pdus[p := Pdu(rack, 1, false)]))
    case UpdatePdu(p) => if p in db.pdus then Done(BumpPdu(db, p)) else Fail(NotFound)
    case DeletePdu(p, expected) =>
      if LivePdu(db.pdus, p) && db.pdus[p].version == expected then Done(RetirePdu(db, p)) else Fail(VersionConflict)
    case ForceArchive(p, expected, _, _) =>
      if LivePdu(db.pdus, p) && db.pdus[p].version == expected then Done(ArchiveEffect(db, p))
      else Fail(VersionConflict)
    case CreateSocket(s, p, number) =>
      if s in db.sockets then Fail(StorageError)
      else if NumberTaken(db.sockets, p, number, s) then Fail(DuplicateCode)
      else Done(db.(sockets := db.sockets[s := Socket(p, number, SocketAvailable, 1, false)]))
    case UpdateSocket(s, number) =>
      if l.socket.None? || !LiveSocket(db.sockets, s) || db.sockets[s].version != l.socket.value.version then
        Fail(VersionConflict)
      else if NumberTaken(db.sockets, l.socket.value.pdu, number, s) then Fail(DuplicateCode)
      else
        Done(db.(sockets := db.sockets[s := l.socket.value.(number := number, version := l.socket.value.version + 1)]))
    case DeleteSocket(s, expected) =>
      if LiveSocket(db.sockets, s) && db.sockets[s].version == expected then Done(DropSocket(db, s))
      else Fail(VersionConflict)
    case Connect(id, s, d, role) =>
      if id in db.connections then Fail(StorageError)
      else if LiveSocket(db.sockets, s) then Done(ConnectEffect(db, id, s, d, ResolveRole(role)))
      else Fail(NotFound)
    case Disconnect(id, expected) =>
      if !LiveConnection(db.connections, id) || db.connections[id].version != expected then Fail(VersionConflict)
      else if l.connection.Some? && LiveSocket(db.sockets, l.connection.value.socket) then
        Done(DisconnectEffect(db, id, l.connection.value.socket))
      else Fail(NotFound)
    case Submit(id, q) =>
      if q.DesiredRack().None? then Fail(InvalidResource)
      else if id in db.approvals || q.DesiredRack().value !in db.racks || l.device.None? || l.at.None? then
        Fail(StorageError)
      else
        Done(db.(approvals := db.approvals[id := NewApproval(q, q.DesiredRack().value, l.device.value, l.at.value)]))
    case Approve(id, _, _, _, _) =>
      if id in db.approvals then PublishPlacement(DecideEffect(db, id, Approved), PlacementOf(r, l), l)
      else Fail(NotFound)
    case Reject(id, _, _) => if id in db.approvals then Done(DecideEffect(db, id, Rejected)) else Fail(NotFound)
  }

  ghost function PublishPlacement(db: Db, q: Placement, l: Locals): Outcome {
    if q.device !in db.devices || l.device.None? || l.rack.None? || l.at.None? || q.DesiredRack().None? then
      Fail(NotFound)
    else if q.position in db.positions || q.occupancy in db.occupancies then Fail(StorageError)
    else
      var at := TargetSnapshot(l.device.value, q.DesiredRack().value, l.rack.value, q.startU, q.orientation);
      Done(PlaceEffect(db, q, at, l.at.value))
  }

  // ----- the system -----

  datatype Thread = Thread(request: Request, pc: nat, locals: Locals)

  datatype System = System(db: Db, locks: map<Key, Tid>, threads: map<Tid, Thread>)

  datatype Action = Begin(t: Tid, request: Request) | Advance(t: Tid) | Finish(t: Tid) | GiveUp(t: Tid)

  const INITIAL := System(EMPTY_DB, map[], map[])

  /** The version a client sends with an edit or a deletion is one it has seen. */
  predicate SeenVersion(db: Db, r: Request) {
    r.UpdateDevice? || r.DeleteDevice? ==> r.id in db.devices && r.expected <= db.devices[r.id].version
  }

  function Unlock(locks: map<Key, Tid>, t: Tid): map<Key, Tid> {
    map k | k in locks && locks[k] != t :: locks[k]
  }

  function NextInstr(th: Thread): Instr {
    if th.pc < |Script(th.request)| then Script(th.request)[th.pc] else Commit
  }

  /** The lock that the thread's next instruction needs. */
  function Wants(th: Thread): Option<Key> {
    KeyOf(th.request, NextInstr(th), th.locals)
  }

  predicate Blocked(s: System, t: Tid)
    requires t in s.threads
  {
    var k := Wants(s.threads[t]);
    k.Some? && k.value in s.locks && s.locks[k.value] != t
  }

  ghost predicate Step(s: System, a: Action, s': System) {
    match a
    case Begin(t, r) =>
      t !in s.threads && SeenVersion(s.db, r)
      && s' == s.(threads := s.threads[t := Thread(r, 0, NOTHING_READ)])
    case Advance(t) =>
      && t in s.threads && NextInstr(s.threads[t]) != Commit && !Blocked(s, t)
      && var th := s.threads[t];
         var read := Execute(s.db, th.request, NextInstr(th), th.locals);
         && read.Some?
         && s' == System(s.db,
                         if Wants(th).Some? then s.locks[Wants(th).value := t] else s.locks,
                         s.threads[t := Thread(th.request, th.pc + 1, read.value)])
    case Finish(t) =>
      && t in s.threads && NextInstr(s.threads[t]) == Commit
      && var written := Publish(s.db, s.threads[t].request, s.threads[t].locals);
         && written.Done?
         && s' == System(written.db, Unlock(s.locks, t), s.threads - {t})
    case GiveUp(t) =>
      t in s.threads && s' == System(s.db, Unlock(s.locks, t), s.threads - {t})
  }
}
