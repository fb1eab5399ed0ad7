// What a transaction knows while it holds its locks, and what the commits of others leave alone.

module Interference {
  import opened Wrappers
  import opened Inventory
  import opened Transactions
  import opened InventoryProofs
  import opened Interleaving

  // ----- what a commit may change, given the locks of its transaction -----

  /** The device's live positions are the same rows. */
  ghost predicate SamePlace(before: map<Id, Position>, after: map<Id, Position>, d: Id) {
    && (forall p :: Holds(after, p, d) ==> Holds(before, p, d) && after[p].at == before[p].at)
    && (forall p :: Holds(before, p, d) ==> Holds(after, p, d) && after[p].at == before[p].at)
  }

  ghost predicate DevicesRespect(db: Db, db': Db, owned: set<Key>) {
    forall d :: d in db.devices ==>
      && d in db'.devices
      && db.devices[d].version <= db'.devices[d].version
      && (DeviceKey(d) !in owned ==> db'.devices[d] == db.devices[d])
      && (db'.devices[d].version == db.devices[d].version ==>
            db'.devices[d] == db.devices[d] && SamePlace(db.positions, db'.positions, d))
  }

  /** A connection appears only under the locks of its device and of its socket's PDU. */
  ghost predicate ConnectionsRespect(db: Db, db': Db, owned: set<Key>) {
    && (forall c :: c in db.connections ==>
          c in db'.connections && db'.connections[c].socket == db.connections[c].socket)
    && (forall c :: LiveConnection(db'.connections, c) ==>
          || (c in db.connections && db'.connections[c] == db.connections[c])
          || (DeviceKey(db'.connections[c].device) in owned
              && db'.connections[c].socket in db.sockets && PduKey(db.sockets[db'.connections[c].socket].pdu) in owned))
    && (forall c :: LiveConnection(db.connections, c) && c in db'.connections && db'.connections[c].deleted ==>
          db.connections[c].socket in db.sockets && PduKey(db.sockets[db.connections[c].socket].pdu) in owned)
  }

  /** Rows appear in a rack only under the rack's lock. */
  ghost predicate RacksRespect(db: Db, db': Db, owned: set<Key>) {
    && (forall r :: r in db.racks ==> r in db'.racks && (RackKey(r) !in owned ==> db'.racks[r] == db.racks[r]))
    && (forall p :: LivePosition(db'.positions, p) && RackKey(db'.positions[p].at.rack) !in owned ==>
          LivePosition(db.positions, p) && db'.positions[p] == db.positions[p])
    && (forall o :: LiveOccupancy(db'.occupancies, o) && RackKey(db'.occupancies[o].rack) !in owned ==>
          LiveOccupancy(db.occupancies, o) && db'.occupancies[o] == db.occupancies[o])
    && (forall p :: LivePdu(db'.pdus, p) && RackKey(db'.pdus[p].rack) !in owned ==>
          LivePdu(db.pdus, p) && db'.pdus[p].rack == db.pdus[p].rack)
  }

  /** A PDU and its sockets change only under the PDU's lock. */
  ghost predicate PdusRespect(db: Db, db': Db, owned: set<Key>) {
    && (forall p :: p in db.pdus ==> p in db'.pdus && (PduKey(p) !in owned ==> db'.pdus[p] == db.pdus[p]))
    && (forall s :: s in db.sockets ==>
          && s in db'.sockets
          && db'.sockets[s].pdu == db.sockets[s].pdu
          && (PduKey(db.sockets[s].pdu) !in owned ==> db'.sockets[s] == db.sockets[s]))
    && (forall s :: s in db'.sockets && s !in db.sockets ==> PduKey(db'.sockets[s].pdu) in owned)
  }

  /** The two rows are the same request, whatever was decided about it. */
  predicate SameRequest(a: Approval, b: Approval) {
    a == b.(status := a.status, version := a.version)
  }

  ghost predicate ApprovalsRespect(db: Db, db': Db, owned: set<Key>) {
    forall a :: a in db.approvals ==>
      && a in db'.approvals
      && SameRequest(db'.approvals[a], db.approvals[a])
      && (ApprovalKey(a) !in owned ==> db'.approvals[a] == db.approvals[a])
  }

  ghost predicate Respects(db: Db, db': Db, owned: set<Key>) {
    && DevicesRespect(db, db', owned)
    && ConnectionsRespect(db, db', owned)
    && RacksRespect(db, db', owned)
    && PdusRespect(db, db', owned)
    && ApprovalsRespect(db, db', owned)
  }

  // ----- what an instruction has established -----

  /** What instruction `i` of `r` found out, as it still holds in `db`. */
  ghost predicate Known(db: Db, r: Request, i: Instr, l: Locals) {
    match i
    case FetchSocket =>
      && SocketOf(r, l).Some? && l.socket.Some?
      && SocketOf(r, l).value in db.sockets && db.sockets[SocketOf(r, l).value].pdu == l.socket.value.pdu
    case FetchConnection =>
      && r.Disconnect? && l.connection.Some?
      && r.id in db.connections && db.connections[r.id].socket == l.connection.value.socket
    case FetchApproval =>
      && (r.Approve? || r.Reject?) && r.actor && l.record.Some?
      && r.id in db.approvals && SameRequest(db.approvals[r.id], l.record.value)
    case FetchDevice =>
      && l.device.Some? && DeviceOf(r, l) in db.devices && !l.device.value.deleted && 1 <= l.device.value.version
      && (r.UpdateDevice? || r.DeleteDevice? ==> r.expected <= l.device.value.version)
      && l.device.value.version <= db.devices[DeviceOf(r, l)].version
      && (l.device.value.version == db.devices[DeviceOf(r, l)].version ==> l.device.value == db.devices[DeviceOf(r, l)])
    case FetchRack => true
    case LockDevice =>
      && LiveDevice(db.devices, DeviceOf(r, l)) && l.device == Some(db.devices[DeviceOf(r, l)])
      && DeviceFits(r, l, db.devices[DeviceOf(r, l)])
    case LockRack =>
      && RackOf(r, l).Some? && LiveRack(db.racks, RackOf(r, l).value)
      && l.rack == Some(db.racks[RackOf(r, l).value]) && RackFits(r, l, db.racks[RackOf(r, l).value])
    case LockPdu =>
      PduOf(r, l).Some? && LivePdu(db.pdus, PduOf(r, l).value) && l.pdu == Some(db.pdus[PduOf(r, l).value])
    case LockSocket =>
      && SocketOf(r, l).Some? && LiveSocket(db.sockets, SocketOf(r, l).value)
      && l.socket == Some(db.sockets[SocketOf(r, l).value])
      && (r.Connect? ==> l.socket.value.status != SocketConnected)
    case ClaimApproval =>
      (r.Approve? || r.Reject?) && r.id in db.approvals && Claimable(db.approvals[r.id], r.decision)
    case CasDevice =>
      (r.UpdateDevice? || r.DeleteDevice?) && LiveDevice(db.devices, r.id) && db.devices[r.id].version == r.expected
    case FetchPdu => true
    case CasPdu => r.UpdatePdu? && LivePdu(db.pdus, r.id)
    case CasRack => r.UpdateRack? && LiveRack(db.racks, r.id) && db.racks[r.id].version == r.expected
    case CountDeviceConnections => NeedsPowerCheck(r, l) ==> !Powered(db.connections, DeviceOf(r, l))
    case CountSocketConnections => SocketOf(r, l).Some? && !SocketInUse(db.connections, SocketOf(r, l).value)
    case CountPduConnections =>
      PduOf(r, l).Some? && ImpactFits(r, Impact(db.sockets, db.connections, PduOf(r, l).value))
    case CountRackPositions => RackOf(r, l).Some? && !HasPositions(db.positions, RackOf(r, l).value)
    case CountRackPdus => RackOf(r, l).Some? && !HasPdus(db.pdus, RackOf(r, l).value)
    case ReadOccupancies =>
      && RackOf(r, l).Some?
      && !Conflict(db.occupancies, DeviceOf(r, l), RackOf(r, l).value, PlacementOf(r, l).startU, EndOf(r, l))
    case ReadPosition =>
      ReadsPosition(r) ==>
        && l.at.Some? && l.device.Some? && DeviceOf(r, l) in db.devices
        && PositionFits(r, l, l.at.value)
        && l.device.value.version <= db.devices[DeviceOf(r, l)].version
        && (l.device.value.version == db.devices[DeviceOf(r, l)].version ==>
              SitsAt(db.positions, DeviceOf(r, l), l.at.value))
    case ReadRole =>
      && r.Connect? && !ResolveRole(r.role).UnknownRole?
      && !RoleTaken(db.connections, r.device, ResolveRole(r.role))
    case Commit => true
  }

  // ----- facts survive the commits of others -----

  lemma SitsAtSamePlace(before: map<Id, Position>, after: map<Id, Position>, d: Id, at: Option<Snapshot>)
    requires SamePlace(before, after, d) && SitsAt(before, d, at)
    ensures SitsAt(after, d, at)
  {
    if at.Some? {
      var p :| Holds(before, p, d) && before[p].at == at.value;
      assert Holds(after, p, d);
    }
  }

  /** No connection appears on a device whose lock another transaction holds. */
  lemma DeviceConnectionsStable(db: Db, db': Db, owned: set<Key>, d: Id, c: Id)
    requires ConnectionsRespect(db, db', owned) && DeviceKey(d) !in owned
    requires LiveConnection(db'.connections, c) && db'.connections[c].device == d
    ensures LiveConnection(db.connections, c) && db.connections[c] == db'.connections[c]
  {
  }

  lemma ImpactStable(db: Db, db': Db, owned: set<Key>, p: Id)
    requires ConnectionsRespect(db, db', owned) && PdusRespect(db, db', owned) && PduKey(p) !in owned
    ensures Impact(db'.sockets, db'.connections, p) == Impact(db.sockets, db.connections, p)
  {
  }

  /** The lock that protects what an instruction found out; `None` if versions alone do. */
  function GuardOf(r: Request, i: Instr, l: Locals): Option<Key> {
    match i
    case CountDeviceConnections => Some(DeviceKey(DeviceOf(r, l)))
    case ReadRole => Some(DeviceKey(DeviceOf(r, l)))
    case CountSocketConnections => if l.socket.Some? then Some(PduKey(l.socket.value.pdu)) else None
    case LockSocket => if l.socket.Some? then Some(PduKey(l.socket.value.pdu)) else None
    case CountPduConnections => if PduOf(r, l).Some? then Some(PduKey(PduOf(r, l).value)) else None
    case CountRackPositions => if RackOf(r, l).Some? then Some(RackKey(RackOf(r, l).value)) else None
    case CountRackPdus => if RackOf(r, l).Some? then Some(RackKey(RackOf(r, l).value)) else None
    case ReadOccupancies => if RackOf(r, l).Some? then Some(RackKey(RackOf(r, l).value)) else None
    case _ => KeyOf(r, i, l)
  }

  lemma KnownDevicesStable(db: Db, db': Db, owned: set<Key>, r: Request, i: Instr, l: Locals)
    requires Known(db, r, i, l) && DevicesRespect(db, db', owned)
    requires i.FetchDevice? || i.LockDevice? || i.CasDevice? || i.ReadPosition?
    requires GuardOf(r, i, l).Some? ==> GuardOf(r, i, l).value !in owned
    ensures Known(db', r, i, l)
  {
    if i.ReadPosition? && ReadsPosition(r) {
      var d := DeviceOf(r, l);
      if l.device.value.version == db'.devices[d].version {
        SitsAtSamePlace(db.positions, db'.positions, d, l.at.value);
      }
    }
  }

  lemma KnownRacksStable(db: Db, db': Db, owned: set<Key>, r: Request, i: Instr, l: Locals)
    requires Known(db, r, i, l) && RacksRespect(db, db', owned)
    requires i.LockRack? || i.CasRack? || i.CountRackPositions? || i.CountRackPdus? || i.ReadOccupancies?
    requires GuardOf(r, i, l).Some? ==> GuardOf(r, i, l).value !in owned
    ensures Known(db', r, i, l)
  {
  }

  lemma KnownPdusStable(db: Db, db': Db, owned: set<Key>, r: Request, i: Instr, l: Locals)
    requires Known(db, r, i, l) && PdusRespect(db, db', owned)
    requires i.FetchSocket? || i.LockPdu? || i.LockSocket? || i.CasPdu?
    requires GuardOf(r, i, l).Some? ==> GuardOf(r, i, l).value !in owned
    ensures Known(db', r, i, l)
  {
  }

  lemma KnownConnectionsStable(db: Db, db': Db, owned: set<Key>, r: Request, i: Instr, l: Locals)
    requires Known(db, r, i, l) && ConnectionsRespect(db, db', owned) && PdusRespect(db, db', owned)
    requires i.FetchConnection? || i.CountDeviceConnections? || i.ReadRole?
             || i.CountSocketConnections? || i.CountPduConnections?
    requires GuardOf(r, i, l).Some? ==> GuardOf(r, i, l).value !in owned
    requires i.CountSocketConnections? ==> Known(db, r, FetchSocket, l)
    ensures Known(db', r, i, l)
  {
    match i
    case CountDeviceConnections =>
      forall c | LiveConnection(db'.connections, c) && db'.connections[c].device == DeviceOf(r, l)
        ensures Powered(db.connections, DeviceOf(r, l))
      {
        DeviceConnectionsStable(db, db', owned, DeviceOf(r, l), c);
      }
    case ReadRole =>
      forall c | LiveConnection(db'.connections, c) && db'.connections[c].device == r.device
        ensures LiveConnection(db.connections, c) && db.connections[c] == db'.connections[c]
      {
        DeviceConnectionsStable(db, db', owned, r.device, c);
      }
    case CountPduConnections =>
      ImpactStable(db, db', owned, PduOf(r, l).value);
    case _ =>
  }

  lemma KnownApprovalsStable(db: Db, db': Db, owned: set<Key>, r: Request, i: Instr, l: Locals)
    requires Known(db, r, i, l) && ApprovalsRespect(db, db', owned)
    requires i.FetchApproval? || i.ClaimApproval?
    requires GuardOf(r, i, l).Some? ==> GuardOf(r, i, l).value !in owned
    ensures Known(db', r, i, l)
  {
  }

  lemma NothingKnown(db: Db, r: Request, i: Instr, l: Locals)
    requires i.FetchRack? || i.FetchPdu? || i.Commit?
    ensures Known(db, r, i, l)
  {
  }

  /** What a transaction knows survives another's commit, unless that one held the lock protecting it. */
  lemma KnownStable(db: Db, db': Db, owned: set<Key>, r: Request, i: Instr, l: Locals)
    requires Known(db, r, i, l) && Respects(db, db', owned)
    requires GuardOf(r, i, l).Some? ==> GuardOf(r, i, l).value !in owned
    requires i.CountSocketConnections? ==> Known(db, r, FetchSocket, l)
    ensures Known(db', r, i, l)
  {
    hide DevicesRespect, ConnectionsRespect, RacksRespect, PdusRespect, ApprovalsRespect, GuardOf, Known;
    match i
    case FetchDevice => KnownDevicesStable(db, db', owned, r, i, l);
    case LockDevice => KnownDevicesStable(db, db', owned, r, i, l);
    case CasDevice => KnownDevicesStable(db, db', owned, r, i, l);
    case ReadPosition => KnownDevicesStable(db, db', owned, r, i, l);
    case LockRack => KnownRacksStable(db, db', owned, r, i, l);
    case CasRack => KnownRacksStable(db, db', owned, r, i, l);
    case CountRackPositions => KnownRacksStable(db, db', owned, r, i, l);
    case CountRackPdus => KnownRacksStable(db, db', owned, r, i, l);
    case ReadOccupancies => KnownRacksStable(db, db', owned, r, i, l);
    case FetchSocket => KnownPdusStable(db, db', owned, r, i, l);
    case LockPdu => KnownPdusStable(db, db', owned, r, i, l);
    case CasPdu => KnownPdusStable(db, db', owned, r, i, l);
    case LockSocket => KnownPdusStable(db, db', owned, r, i, l);
    case FetchApproval => KnownApprovalsStable(db, db', owned, r, i, l);
    case ClaimApproval => KnownApprovalsStable(db, db', owned, r, i, l);
    case FetchRack => NothingKnown(db', r, i, l);
    case FetchPdu => NothingKnown(db', r, i, l);
    case Commit => NothingKnown(db', r, i, l);
    case FetchConnection => KnownConnectionsStable(db, db', owned, r, i, l);
    case CountDeviceConnections => KnownConnectionsStable(db, db', owned, r, i, l);
    case CountSocketConnections => KnownConnectionsStable(db, db', owned, r, i, l);
    case CountPduConnections => KnownConnectionsStable(db, db', owned, r, i, l);
    case ReadRole => KnownConnectionsStable(db, db', owned, r, i, l);
  }

  // ----- every transaction respects the locks it does not hold -----

  /** The rows a transaction must have locked to succeed on `db`. */
  function Footprint(db: Db, r: Request): set<Key> {
    match r
    case UpdateDevice(d, _, _) => {DeviceKey(d)}
    case DeleteDevice(d, _) => {DeviceKey(d)}
    case Place(q) => PlacementFootprint(q)
    case Remove(d) => {DeviceKey(d)}
    case UpdateRack(id, _, _, _) => {RackKey(id)}
    case DeleteRack(id, _) => {RackKey(id)}
    case CreatePdu(_, rack) => {RackKey(rack)}
    case UpdatePdu(p) => {PduKey(p)}
    case DeletePdu(p, _) => {PduKey(p)}
    case ForceArchive(p, _, _, _) => {PduKey(p)}
    case CreateSocket(_, p, _) => {PduKey(p)}
    case UpdateSocket(s, _) => SocketFootprint(db, s)
    case DeleteSocket(s, _) => SocketFootprint(db, s)
    case Connect(_, s, d, _) => {DeviceKey(d)} + SocketFootprint(db, s)
    case Disconnect(c, _) => if c in db.connections then SocketFootprint(db, db.connections[c].socket) else {}
    case Approve(id, _, _, position, occupancy) =>
      {ApprovalKey(id)}
      + if id in db.approvals then PlacementFootprint(ApprovedPlacement(db.approvals[id], position, occupancy)) else {}
    case Reject(id, _, _) => {ApprovalKey(id)}
    case _ => {}
  }

  function PlacementFootprint(q: Placement): set<Key> {
    {DeviceKey(q.device)} + if q.DesiredRack().Some? then {RackKey(q.DesiredRack().value)} else {}
  }

  function SocketFootprint(db: Db, s: Id): set<Key> {
    {SocketKey(s)} + if s in db.sockets then {PduKey(db.sockets[s].pdu)} else {}
  }

  lemma MoveRespectsDevices(db: Db, db': Db, d: Id)
    requires d in db.devices && d in db'.devices && db'.devices == db.devices[d := db'.devices[d]]
    requires db.devices[d].version < db'.devices[d].version
    requires OnlyMoves(db.positions, db'.positions, d)
    ensures DevicesRespect(db, db', {DeviceKey(d)})
  {
  }

  lemma RespectsMore(db: Db, db': Db, owned: set<Key>, more: set<Key>)
    requires Respects(db, db', owned) && owned <= more
    ensures Respects(db, db', more)
  {
  }

  /** Tables that did not change respect any locks. */
  lemma SameTablesRespect(db: Db, db': Db, owned: set<Key>)
    ensures db'.devices == db.devices && db'.positions == db.positions ==> DevicesRespect(db, db', owned)
    ensures db'.connections == db.connections ==> ConnectionsRespect(db, db', owned)
    ensures db'.pdus == db.pdus && db'.sockets == db.sockets ==> PdusRespect(db, db', owned)
    ensures db'.approvals == db.approvals ==> ApprovalsRespect(db, db', owned)
    ensures (db'.racks == db.racks && db'.positions == db.positions && db'.occupancies == db.occupancies
             && db'.pdus == db.pdus) ==> RacksRespect(db, db', owned)
  {
  }

  lemma PlacedAt(db: Db, q: Placement) returns (at: Snapshot)
    requires PlaceDevice(db, q).Done?
    ensures q.device in db.devices && q.DesiredRack() == Some(at.rack)
    ensures PlaceDevice(db, q).db == PlaceEffect(db, q, at, ActiveAt(db.positions, q.device))
  {
    hide CheckLifecycle, CheckRack, ActiveAt, Powered, Conflict, PlaceEffect;
    var rack := q.DesiredRack().value;
    at := TargetSnapshot(db.devices[q.device], rack, db.racks[rack], q.startU, q.orientation);
  }

  lemma PlaceRespectsRacks(db: Db, q: Placement)
    requires PlaceDevice(db, q).Done?
    ensures RacksRespect(db, PlaceDevice(db, q).db, PlacementFootprint(q))
  {
    hide PlaceDevice, PlaceEffect;
    var at := PlacedAt(db, q);
    PlacedRows(db, q, at, ActiveAt(db.positions, q.device));
  }

  /** Of the rack-bound tables, a placement adds one row each to positions and occupancies, in the rack of `at`. */
  lemma PlacedRows(db: Db, q: Placement, at: Snapshot, from: Option<Snapshot>)
    requires q.device in db.devices
    ensures var after := PlaceEffect(db, q, at, from);
            && after.racks == db.racks && after.pdus == db.pdus
            && (forall p | LivePosition(after.positions, p) && after.positions[p].at.rack != at.rack ::
                  LivePosition(db.positions, p) && after.positions[p] == db.positions[p])
            && (forall o | LiveOccupancy(after.occupancies, o) && after.occupancies[o].rack != at.rack ::
                  LiveOccupancy(db.occupancies, o) && after.occupancies[o] == db.occupancies[o])
  {
    hide SetLifecycle, Active;
  }

  lemma PlaceRespectsDevices(db: Db, q: Placement)
    requires OnePosition(db.positions) && PlaceDevice(db, q).Done?
    ensures DevicesRespect(db, PlaceDevice(db, q).db, {DeviceKey(q.device)})
  {
    var after := PlaceDevice(db, q).db;
    ReleasedPositions(db, q.device);
    assert OnlyMoves(db.positions, after.positions, q.device);
    hide OnlyMoves, DevicesRespect;
    MoveRespectsDevices(db, after, q.device);
  }

  lemma DevicesRespectMore(db: Db, db': Db, owned: set<Key>, more: set<Key>)
    requires DevicesRespect(db, db', owned) && owned <= more
    ensures DevicesRespect(db, db', more)
  {
  }

  lemma PlaceRespects(db: Db, q: Placement)
    requires OnePosition(db.positions) && PlaceDevice(db, q).Done?
    ensures Respects(db, PlaceDevice(db, q).db, PlacementFootprint(q))
  {
    hide DevicesRespect, ConnectionsRespect, RacksRespect, PdusRespect, ApprovalsRespect;
    var after := PlaceDevice(db, q).db;
    SameTablesRespect(db, after, PlacementFootprint(q));
    PlaceRespectsDevices(db, q);
    DevicesRespectMore(db, after, {DeviceKey(q.device)}, PlacementFootprint(q));
    PlaceRespectsRacks(db, q);
  }

  lemma RemoveRespectsRacks(db: Db, d: Id, from: Option<Snapshot>, owned: set<Key>)
    requires d in db.devices
    ensures RacksRespect(db, RemoveEffect(db, d, from), owned)
  {
    hide SetLifecycle;
  }

  lemma RemoveRespects(db: Db, d: Id)
    requires OnePosition(db.positions) && RemoveDevice(db, d).Done?
    ensures Respects(db, RemoveDevice(db, d).db, {DeviceKey(d)})
  {
    hide DevicesRespect, ConnectionsRespect, RacksRespect, PdusRespect, ApprovalsRespect;
    var after := RemoveDevice(db, d).db;
    SameTablesRespect(db, after, {DeviceKey(d)});
    ReleasedPositions(db, d);
    MoveRespectsDevices(db, after, d);
    RemoveRespectsRacks(db, d, ActiveAt(db.positions, d), {DeviceKey(d)});
  }

  /** An approval places the device and decides the record. */
  lemma ApprovalInParts(db: Db, r: Request) returns (q: Placement)
    requires r.Approve? && ApproveRequest(db, r).Done?
    ensures r.id in db.approvals && q == ApprovedPlacement(db.approvals[r.id], r.position, r.occupancy)
    ensures PlaceDevice(db, q).Done? && PlaceDevice(db, q).db.approvals == db.approvals
    ensures ApproveRequest(db, r).db == DecideEffect(PlaceDevice(db, q).db, r.id, Approved)
    ensures PlacementFootprint(q) <= Footprint(db, r) && ApprovalKey(r.id) in Footprint(db, r)
  {
    q := ApprovedPlacement(db.approvals[r.id], r.position, r.occupancy);
    hide PlaceDevice, DecideEffect, PlacementFootprint;
    PlaceCommutesWithDecision(db, q, r.id, Approved);
    PlaceAdvancesDevice(db, q);
  }

  lemma ApplyApprove(db: Db, r: Request)
    requires r.Approve?
    ensures Apply(db, r) == ApproveRequest(db, r)
  {
  }

  lemma ApproveRespects(db: Db, r: Request)
    requires OnePosition(db.positions) && r.Approve? && ApproveRequest(db, r).Done?
    ensures Respects(db, ApproveRequest(db, r).db, Footprint(db, r))
  {
    hide PlaceDevice, Respects, ApproveRequest, DecideEffect, Footprint, PlacementFootprint, OnePosition;
    var q := ApprovalInParts(db, r);
    var placed := PlaceDevice(db, q).db;
    PlaceRespects(db, q);
    RespectsMore(db, placed, PlacementFootprint(q), Footprint(db, r));
    DecisionRespects(db, placed, r.id, Approved, Footprint(db, r));
  }

  lemma DecisionRespects(db: Db, placed: Db, a: Id, status: ApprovalStatus, owned: set<Key>)
    requires Respects(db, placed, owned) && ApprovalKey(a) in owned
    requires a in db.approvals && placed.approvals == db.approvals
    ensures Respects(db, DecideEffect(placed, a, status), owned)
  {
  }

  lemma DeviceRespects(db: Db, r: Request)
    requires (r.CreateDevice? || r.UpdateDevice? || r.DeleteDevice?) && Apply(db, r).Done?
    ensures Respects(db, Apply(db, r).db, Footprint(db, r))
  {
    SameTablesRespect(db, Apply(db, r).db, Footprint(db, r));
    if r.CreateDevice? {
      assert DevicesRespect(db, Apply(db, r).db, {});
    } else {
      MoveRespectsDevices(db, Apply(db, r).db, r.id);
    }
  }

  lemma RackRespects(db: Db, r: Request)
    requires (r.CreateRack? || r.UpdateRack? || r.DeleteRack?) && Apply(db, r).Done?
    ensures Respects(db, Apply(db, r).db, Footprint(db, r))
  {
    SameTablesRespect(db, Apply(db, r).db, Footprint(db, r));
  }

  lemma PduRespectsPdus(db: Db, r: Request)
    requires (r.CreatePdu? || r.UpdatePdu? || r.DeletePdu? || r.ForceArchive?) && Apply(db, r).Done?
    ensures PdusRespect(db, Apply(db, r).db, Footprint(db, r))
  {
  }

  lemma PduRespectsConnections(db: Db, r: Request)
    requires r.ForceArchive? && ArchivePdu(db, r).Done?
    ensures ConnectionsRespect(db, ArchivePdu(db, r).db, Footprint(db, r))
  {
  }

  /** Of the rack-bound tables, only the PDUs change: one is new, or fewer are live. */
  lemma PduRows(db: Db, r: Request)
    requires (r.CreatePdu? || r.UpdatePdu? || r.DeletePdu? || r.ForceArchive?) && Apply(db, r).Done?
    ensures var after := Apply(db, r).db;
            && after.racks == db.racks && after.positions == db.positions && after.occupancies == db.occupancies
            && forall p | LivePdu(after.pdus, p) && RackKey(after.pdus[p].rack) !in Footprint(db, r) ::
                 LivePdu(db.pdus, p) && after.pdus[p].rack == db.pdus[p].rack
  {
    hide Impact, DropConnections, DeleteSockets;
  }

  lemma PduRespectsRacks(db: Db, r: Request)
    requires (r.CreatePdu? || r.UpdatePdu? || r.DeletePdu? || r.ForceArchive?) && Apply(db, r).Done?
    ensures RacksRespect(db, Apply(db, r).db, Footprint(db, r))
  {
    hide Apply, Footprint;
    PduRows(db, r);
  }

  lemma PduTables(db: Db, r: Request)
    requires (r.CreatePdu? || r.UpdatePdu? || r.DeletePdu? || r.ForceArchive?) && Apply(db, r).Done?
    ensures var after := Apply(db, r).db;
            && after.devices == db.devices && after.positions == db.positions && after.approvals == db.approvals
            && (r.ForceArchive? || after.connections == db.connections)
            && (r.ForceArchive? ==> ArchivePdu(db, r).Done? && after == ArchivePdu(db, r).db)
  {
  }

  lemma PduRespects(db: Db, r: Request)
    requires (r.CreatePdu? || r.UpdatePdu? || r.DeletePdu? || r.ForceArchive?) && Apply(db, r).Done?
    ensures Respects(db, Apply(db, r).db, Footprint(db, r))
  {
    hide ConnectionsRespect, PdusRespect, DevicesRespect, ApprovalsRespect, RacksRespect, Apply, Footprint, ArchivePdu;
    PduTables(db, r);
    SameTablesRespect(db, Apply(db, r).db, Footprint(db, r));
    PduRespectsPdus(db, r);
    PduRespectsRacks(db, r);
    if r.ForceArchive? {
      PduRespectsConnections(db, r);
    }
  }

  lemma SocketRespectsPdus(db: Db, r: Request)
    requires (r.CreateSocket? || r.UpdateSocket? || r.DeleteSocket?) && Apply(db, r).Done?
    ensures PdusRespect(db, Apply(db, r).db, Footprint(db, r))
  {
    hide SocketInUse, NumberTaken;
  }

  lemma SocketTables(db: Db, r: Request)
    requires (r.CreateSocket? || r.UpdateSocket? || r.DeleteSocket?) && Apply(db, r).Done?
    ensures Apply(db, r).db == db.(sockets := Apply(db, r).db.sockets)
  {
  }

  lemma SocketRespects(db: Db, r: Request)
    requires (r.CreateSocket? || r.UpdateSocket? || r.DeleteSocket?) && Apply(db, r).Done?
    ensures Respects(db, Apply(db, r).db, Footprint(db, r))
  {
    hide ConnectionsRespect, PdusRespect, DevicesRespect, ApprovalsRespect, RacksRespect, Apply, Footprint;
    SocketTables(db, r);
    SameTablesRespect(db, Apply(db, r).db, Footprint(db, r));
    SocketRespectsPdus(db, r);
  }

  lemma ConnectionRespectsConnections(db: Db, r: Request)
    requires (r.Connect? || r.Disconnect?) && Apply(db, r).Done?
    ensures ConnectionsRespect(db, Apply(db, r).db, Footprint(db, r))
  {
  }

  lemma ConnectionRespectsPdus(db: Db, r: Request)
    requires (r.Connect? || r.Disconnect?) && Apply(db, r).Done?
    ensures PdusRespect(db, Apply(db, r).db, Footprint(db, r))
  {
    hide SocketInUse, RoleTaken, ActiveAt;
  }

  lemma ConnectionTables(db: Db, r: Request)
    requires (r.Connect? || r.Disconnect?) && Apply(db, r).Done?
    ensures Apply(db, r).db == db.(sockets := Apply(db, r).db.sockets, connections := Apply(db, r).db.connections)
  {
  }

  lemma ConnectionRespects(db: Db, r: Request)
    requires (r.Connect? || r.Disconnect?) && Apply(db, r).Done?
    ensures Respects(db, Apply(db, r).db, Footprint(db, r))
  {
    hide ConnectionsRespect, PdusRespect, DevicesRespect, ApprovalsRespect, RacksRespect, Apply, Footprint;
    ConnectionTables(db, r);
    SameTablesRespect(db, Apply(db, r).db, Footprint(db, r));
    ConnectionRespectsConnections(db, r);
    ConnectionRespectsPdus(db, r);
  }

  /** A transaction changes only rows it has locked, apart from ending what it released. */
  lemma ApplyRespects(db: Db, r: Request)
    requires Inv(db) && Apply(db, r).Done?
    ensures Respects(db, Apply(db, r).db, Footprint(db, r))
  {
    hide Respects, PositionsOk, MirrorOk, DisjointOk, RecordsOk;
    match r
    case CreateDevice(_, _, _, _) => DeviceRespects(db, r);
    case UpdateDevice(_, _, _) => DeviceRespects(db, r);
    case DeleteDevice(_, _) => DeviceRespects(db, r);
    case Place(q) => PlaceRespects(db, q);
    case Remove(d) => RemoveRespects(db, d);
    case CreateRack(_, _, _, _, _) => RackRespects(db, r);
    case UpdateRack(_, _, _, _) => RackRespects(db, r);
    case DeleteRack(_, _) => RackRespects(db, r);
    case CreatePdu(_, _) => PduRespects(db, r);
    case UpdatePdu(_) => PduRespects(db, r);
    case DeletePdu(_, _) => PduRespects(db, r);
    case ForceArchive(_, _, _, _) => PduRespects(db, r);
    case CreateSocket(_, _, _) => SocketRespects(db, r);
    case UpdateSocket(_, _) => SocketRespects(db, r);
    case DeleteSocket(_, _) => SocketRespects(db, r);
    case Connect(_, _, _, _) => ConnectionRespects(db, r);
    case Disconnect(_, _) => ConnectionRespects(db, r);
    case Submit(_, _) => NewApprovalRespects(db, r);
    case Approve(_, _, _, _, _) => ApproveRespects(db, r);
    case Reject(_, _, _) => NewApprovalRespects(db, r);
  }

  lemma NewApprovalRespects(db: Db, r: Request)
    requires (r.Submit? || r.Reject?) && Apply(db, r).Done?
    ensures Respects(db, Apply(db, r).db, Footprint(db, r))
  {
    hide DevicesRespect, ConnectionsRespect, RacksRespect, PdusRespect;
    SameTablesRespect(db, Apply(db, r).db, Footprint(db, r));
    assert ApprovalsRespect(db, Apply(db, r).db, Footprint(db, r));
  }
}
