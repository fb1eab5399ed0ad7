// The transaction bodies as the service runs them, one statement after another, each proved
// to do exactly what its specification in Transactions.dfy says.

module Service {
  import opened Wrappers
  import opened Inventory
  import opened Transactions
  import opened InventoryProofs
  import opened Outcomes

  /** The call ended as specified: with the new tables, or with the error and the old tables. */
  ghost predicate Agrees(before: Db, outcome: Outcome, after: Db, error: Option<Error>) {
    match outcome
    case Done(db) => error == None && after == db
    case Fail(e) => error == Some(e) && after == before
  }

  class Database {
    var devices: map<Id, Device>
    var racks: map<Id, Rack>
    var positions: map<Id, Position>
    var occupancies: map<Id, Occupancy>
    var pdus: map<Id, Pdu>
    var sockets: map<Id, Socket>
    var connections: map<Id, Connection>
    var approvals: map<Id, Approval>
    var history: seq<HistoryEntry>

    function State(): Db
      reads this
    {
      Db(devices, racks, positions, occupancies, pdus, sockets, connections, approvals, history)
    }

    ghost predicate Valid()
      reads this
    {
      Inv(State())
    }

    constructor ()
      ensures Valid() && State() == EMPTY_DB
    {
      devices, racks, positions, occupancies := map[], map[], map[], map[];
      pdus, sockets, connections, approvals, history := map[], map[], map[], map[], [];
      new;
      hide Inv;
      EmptyTablesInv();
    }

    /** What a failed transaction does to the tables. */
    method Rollback(saved: Db)
      modifies this
      ensures State() == saved
    {
      devices, racks, positions, occupancies := saved.devices, saved.racks, saved.positions, saved.occupancies;
      pdus, sockets, connections := saved.pdus, saved.sockets, saved.connections;
      approvals, history := saved.approvals, saved.history;
    }

    // ----- queries -----

    method GetActivePosition(d: Id) returns (p: Option<Id>)
      requires OnePosition(positions)
      ensures p == Active(positions, d)
    {
      p := None;
      var rest := positions.Keys;
      while rest != {}
        invariant rest <= positions.Keys
        invariant p.None? ==> forall q :: q in positions.Keys - rest ==> !Holds(positions, q, d)
        invariant p.Some? ==> Holds(positions, p.value, d)
        decreases |rest|
      {
        var q :| q in rest;
        rest := rest - {q};
        if !positions[q].deleted && positions[q].device == d {
          p := Some(q);
        }
      }
    }

    method SnapshotOf(d: Id) returns (at: Option<Snapshot>)
      requires OnePosition(positions)
      ensures at == ActiveAt(positions, d)
    {
      var p := GetActivePosition(d);
      at := if p.Some? then Some(positions[p.value].at) else None;
    }

    method ListOccupancies(rack: Id) returns (rows: seq<Occupancy>)
      ensures forall row :: row in rows <==>
                exists o :: LiveOccupancy(occupancies, o) && occupancies[o] == row && row.rack == rack
    {
      rows := [];
      var rest := occupancies.Keys;
      while rest != {}
        invariant rest <= occupancies.Keys
        invariant forall row :: row in rows <==>
                    exists o :: o !in rest && LiveOccupancy(occupancies, o) && occupancies[o] == row && row.rack == rack
        decreases |rest|
      {
        var o :| o in rest;
        ghost var before, seen := rest, rows;
        rest := rest - {o};
        if !occupancies[o].deleted && occupancies[o].rack == rack {
          rows := rows + [occupancies[o]];
        }
        forall row
          ensures row in rows <==>
                    exists e :: e !in rest && LiveOccupancy(occupancies, e) && occupancies[e] == row && row.rack == rack
        {
          if row in seen {
            var e :| e !in before && LiveOccupancy(occupancies, e) && occupancies[e] == row && row.rack == rack;
            assert e !in rest;
          }
        }
      }
    }

    method CountConnectionsByDevice(d: Id) returns (n: nat)
      ensures n > 0 <==> Powered(connections, d)
    {
      var rows := set c | c in connections && LiveConnection(connections, c) && connections[c].device == d;
      assert forall c :: c in rows <==> LiveConnection(connections, c) && connections[c].device == d;
      n := |rows|;
    }

    method CountConnectionsBySocket(s: Id) returns (n: nat)
      ensures n > 0 <==> SocketInUse(connections, s)
    {
      var rows := set c | c in connections && LiveConnection(connections, c) && connections[c].socket == s;
      assert forall c :: c in rows <==> LiveConnection(connections, c) && connections[c].socket == s;
      n := |rows|;
    }

    method HasRoleConnection(d: Id, role: Role) returns (taken: bool)
      ensures taken <==> RoleTaken(connections, d, role)
    {
      taken := exists c | c in connections ::
        LiveConnection(connections, c) && connections[c].device == d && connections[c].role == role;
    }

    method CountPositions(rack: Id) returns (n: nat)
      ensures n > 0 <==> HasPositions(positions, rack)
    {
      var rows := set p | p in positions && LivePosition(positions, p) && positions[p].at.rack == rack;
      assert forall p :: p in rows <==> LivePosition(positions, p) && positions[p].at.rack == rack;
      n := |rows|;
    }

    method CountPdus(rack: Id) returns (n: nat)
      ensures n > 0 <==> HasPdus(pdus, rack)
    {
      var rows := set p | p in pdus && LivePdu(pdus, p) && pdus[p].rack == rack;
      assert forall p :: p in rows <==> LivePdu(pdus, p) && pdus[p].rack == rack;
      n := |rows|;
    }

    // ----- row updates -----

    method Release(p: Id)
      requires p in positions
      modifies `positions, `occupancies
      ensures State() == ReleasePosition(old(State()), p)
    {
      positions := positions[p := positions[p].(deleted := true, version := positions[p].version + 1)];
      occupancies := ReleaseOccupancies(occupancies, p);
    }

    method PlaceInRack(d: Id, at: Snapshot, position: Id, occupancy: Id)
      requires OnePosition(positions)
      modifies `positions, `occupancies
      ensures State() == InsertPosition(ReleaseDevice(old(State()), d), d, at, position, occupancy)
    {
      var previous := GetActivePosition(d);
      if previous.Some? {
        Release(previous.value);
      }
      positions := positions[position := Position(d, at, 1, false)];
      occupancies := occupancies[occupancy := Occupancy(position, d, at.rack, at.startU, at.endU, 1, false)];
    }

    method UpdateLifecycle(d: Id, lifecycle: Lifecycle)
      requires d in devices
      modifies `devices
      ensures devices == SetLifecycle(old(devices), d, lifecycle)
    {
      devices := devices[d := devices[d].(lifecycle := lifecycle, version := devices[d].version + 1)];
    }

    method WriteHistory(entry: HistoryEntry)
      modifies `history
      ensures history == old(history) + [entry]
    {
      history := history + [entry];
    }

    method Decide(a: Id, decision: nat, status: ApprovalStatus) returns (claimed: bool)
      requires a in approvals
      modifies `approvals
      ensures claimed <==> Claimable(old(approvals)[a], decision)
      ensures State() == if claimed then DecideEffect(old(State()), a, status) else old(State())
    {
      claimed := approvals[a].status == Pending && (decision == 0 || approvals[a].version == decision);
      if claimed {
        approvals := approvals[a := approvals[a].(status := status, version := approvals[a].version + 1)];
      }
    }

    // ----- transactions -----

    /** Assigns or moves a device; the caller owns the surrounding transaction. */
    method PlaceInTx(q: Placement) returns (error: Option<Error>)
      requires OnePosition(positions)
      modifies `devices, `positions, `occupancies, `history
      ensures Agrees(old(State()), PlaceDevice(old(State()), q), State(), error)
    {
      hide CheckLifecycle, CheckRack, Conflict, Powered, Active, SetLifecycle, TargetSnapshot;
      if q.device !in devices || devices[q.device].deleted {
        return Some(NotFound);
      }
      var dev := devices[q.device];
      var refused := CheckLifecycle(dev, q.operation);
      if refused.Some? {
        return refused;
      }
      if q.operation == Move {
        var powered := CountConnectionsByDevice(q.device);
        if powered > 0 {
          return Some(DevicePowered);
        }
      }
      var rackId := q.DesiredRack();
      if rackId.None? {
        return Some(InvalidResource);
      }
      if rackId.value !in racks || racks[rackId.value].deleted {
        return Some(NotFound);
      }
      var rack := racks[rackId.value];
      var unfit := CheckRack(dev, rack, q.startU, q.orientation);
      if unfit.Some? {
        return unfit;
      }
      var endU := q.startU + dev.heightU - 1;
      var overlap := OverlapsOther(q.device, rackId.value, q.startU, endU);
      if overlap {
        return Some(RackUConflict);
      }
      if q.position in positions || q.occupancy in occupancies {
        return Some(StorageError);
      }
      var from := SnapshotOf(q.device);
      var at := TargetSnapshot(dev, rackId.value, rack, q.startU, q.orientation);
      PlaceInRack(q.device, at, q.position, q.occupancy);
      UpdateLifecycle(q.device, Running);
      WriteHistory(HistoryEntry(q.device, q.operation, from, Some(at)));
      error := None;
    }

    /** The service's own overlap check over the rack's occupancies. */
    method OverlapsOther(d: Id, rack: Id, startU: int, endU: int) returns (overlap: bool)
      ensures overlap <==>
                exists o :: o in occupancies && !occupancies[o].deleted && occupancies[o].rack == rack
                            && occupancies[o].device != d
                            && startU <= occupancies[o].endU && occupancies[o].startU <= endU
      ensures overlap <==> Conflict(occupancies, d, rack, startU, endU)
    {
      var rows := ListOccupancies(rack);
      for i := 0 to |rows|
        invariant forall k :: 0 <= k < i ==>
                                rows[k].device == d || !RangesOverlap(startU, endU, rows[k].startU, rows[k].endU)
      {
        if rows[i].device != d && RangesOverlap(startU, endU, rows[i].startU, rows[i].endU) {
          assert rows[i] in rows;
          return true;
        }
      }
      forall o | LiveOccupancy(occupancies, o) && occupancies[o].rack == rack && occupancies[o].device != d
        ensures !RangesOverlap(startU, endU, occupancies[o].startU, occupancies[o].endU)
      {
        assert occupancies[o] in rows;
      }
      overlap := false;
    }

    method PlaceTransaction(q: Placement) returns (error: Option<Error>)
      requires Valid()
      modifies this
      ensures Valid()
      ensures error.None? <==> Succeeds(old(State()), Place(q))
      ensures error.None? ==> Leaves(old(State()), Place(q), State())
      ensures error.Some? ==> Refused(old(State()), Place(q), error.value) && State() == old(State())
      ensures Agrees(old(State()), Apply(old(State()), Place(q)), State(), error)
    {
      hide Succeeds, Leaves, Refused, Inv, PlaceDevice;
      OnePositionOf(State());
      error := PlaceInTx(q);
      EndsWell(old(State()), Place(q), State(), error);
    }

    method Decommission(d: Id) returns (error: Option<Error>)
      requires Valid()
      modifies this
      ensures Valid()
      ensures error.None? <==> Succeeds(old(State()), Remove(d))
      ensures error.None? ==> Leaves(old(State()), Remove(d), State())
      ensures error.Some? ==> Refused(old(State()), Remove(d), error.value) && State() == old(State())
      ensures Agrees(old(State()), Apply(old(State()), Remove(d)), State(), error)
    {
      hide Succeeds, Leaves, Refused, Inv;
      OnePositionOf(State());
      error := DecommissionInTx(d);
      EndsWell(old(State()), Remove(d), State(), error);
    }

    method DecommissionInTx(d: Id) returns (error: Option<Error>)
      requires OnePosition(positions)
      modifies `devices, `positions, `occupancies, `history
      ensures Agrees(old(State()), RemoveDevice(old(State()), d), State(), error)
    {
      if d !in devices || devices[d].deleted {
        return Some(NotFound);
      }
      if devices[d].lifecycle == Scrapped || devices[d].lifecycle == OffRack {
        return Some(InvalidResource);
      }
      var powered := CountConnectionsByDevice(d);
      if powered > 0 {
        return Some(DevicePowered);
      }
      var p := GetActivePosition(d);
      var from: Option<Snapshot> := None;
      if p.Some? {
        from := Some(positions[p.value].at);
        Release(p.value);
      }
      UpdateLifecycle(d, OffRack);
      WriteHistory(HistoryEntry(d, Operation.Decommission, from, None));
      error := None;
    }

    method ConnectSocket(id: Id, s: Id, d: Id, requested: Role) returns (error: Option<Error>)
      requires Valid()
      modifies this
      ensures Valid()
      ensures error.None? <==> Succeeds(old(State()), Connect(id, s, d, requested))
      ensures error.None? ==> Leaves(old(State()), Connect(id, s, d, requested), State())
      ensures error.Some? ==> Refused(old(State()), Connect(id, s, d, requested), error.value)
                              && State() == old(State())
      ensures error.None? ==>
                id in connections &&
                connections[id] == Connection(s, d, if requested == DefaultRole then Primary else requested, 1, false)
      ensures Agrees(old(State()), Apply(old(State()), Connect(id, s, d, requested)), State(), error)
    {
      hide Succeeds, Refused, Inv;
      OnePositionOf(State());
      error := ConnectInTx(id, s, d, requested);
      EndsWell(old(State()), Connect(id, s, d, requested), State(), error);
    }

    method ConnectInTx(id: Id, s: Id, d: Id, requested: Role) returns (error: Option<Error>)
      requires OnePosition(positions)
      modifies `connections, `sockets
      ensures Agrees(old(State()), ConnectDevice(old(State()), Connect(id, s, d, requested)), State(), error)
    {
      if s !in sockets || sockets[s].deleted || d !in devices || devices[d].deleted {
        return Some(NotFound);
      }
      var p := sockets[s].pdu;
      if p !in pdus || pdus[p].deleted {
        return Some(NotFound);
      }
      if sockets[s].status == SocketConnected {
        return Some(SocketBusy);
      }
      var at := SnapshotOf(d);
      if at.None? {
        return Some(DeviceNotPositioned);
      }
      if at.value.rack != pdus[p].rack {
        return Some(RackMismatch);
      }
      var role := Primary;
      if requested != DefaultRole {
        if requested != Primary && requested != Standby {
          return Some(InvalidResource);
        }
        role := requested;
      }
      var taken := HasRoleConnection(d, role);
      if taken {
        return Some(SocketBusy);
      }
      if id in connections {
        return Some(StorageError);
      }
      connections := connections[id := Connection(s, d, role, 1, false)];
      sockets := sockets[s := sockets[s].(status := SocketConnected)];
      error := None;
    }

    method DisconnectSocket(c: Id, expected: nat) returns (error: Option<Error>)
      requires Valid()
      modifies this
      ensures Valid()
      ensures error.None? <==> Succeeds(old(State()), Disconnect(c, expected))
      ensures error.None? ==> Leaves(old(State()), Disconnect(c, expected), State())
      ensures error.Some? ==> Refused(old(State()), Disconnect(c, expected), error.value) && State() == old(State())
      ensures error.None? ==> !LiveConnection(connections, c)
      ensures Agrees(old(State()), Apply(old(State()), Disconnect(c, expected)), State(), error)
    {
      hide Succeeds, Refused, Inv;
      error := DisconnectInTx(c, expected);
      EndsWell(old(State()), Disconnect(c, expected), State(), error);
    }

    method DisconnectInTx(c: Id, expected: nat) returns (error: Option<Error>)
      modifies `connections, `sockets
      ensures Agrees(old(State()), DisconnectDevice(old(State()), c, expected), State(), error)
    {
      if c !in connections || connections[c].deleted {
        return Some(NotFound);
      }
      var s := connections[c].socket;
      if s !in sockets || sockets[s].deleted || sockets[s].pdu !in pdus || pdus[sockets[s].pdu].deleted {
        return Some(NotFound);
      }
      if connections[c].version != expected {
        return Some(VersionConflict);
      }
      connections := connections[c := connections[c].(deleted := true, version := connections[c].version + 1)];
      sockets := sockets[s := sockets[s].(status := SocketAvailable)];
      error := None;
    }

    /** Archives a PDU: connections and sockets go first, and a stale version then undoes them again. */
    method ForceArchivePdu(p: Id, expected: nat, reasonGiven: bool, confirmed: int) returns (error: Option<Error>)
      requires Valid()
      modifies this
      ensures Valid()
      ensures error.None? <==> Succeeds(old(State()), ForceArchive(p, expected, reasonGiven, confirmed))
      ensures error.None? ==> Leaves(old(State()), ForceArchive(p, expected, reasonGiven, confirmed), State())
      ensures error.Some? ==> Refused(old(State()), ForceArchive(p, expected, reasonGiven, confirmed), error.value)
                              && State() == old(State())
      ensures error.None? ==> !LivePdu(pdus, p)
      ensures Agrees(old(State()), Apply(old(State()), ForceArchive(p, expected, reasonGiven, confirmed)),
                     State(), error)
    {
      hide Succeeds, Refused, Inv;
      var saved := State();
      error := ArchiveInTx(p, expected, reasonGiven, confirmed);
      if error.Some? {
        Rollback(saved);
      }
      EndsWell(saved, ForceArchive(p, expected, reasonGiven, confirmed), State(), error);
    }

    method ArchiveInTx(p: Id, expected: nat, reasonGiven: bool, confirmed: int) returns (error: Option<Error>)
      modifies `connections, `sockets, `pdus
      ensures var outcome := ArchivePdu(old(State()), ForceArchive(p, expected, reasonGiven, confirmed));
              match outcome
              case Done(db) => error == None && State() == db
              case Fail(e) => error == Some(e)
    {
      hide Impact, DropConnections, DeleteSockets;
      if !reasonGiven {
        return Some(InvalidResource);
      }
      if p !in pdus || pdus[p].deleted {
        return Some(NotFound);
      }
      var impact := Impact(sockets, connections, p);
      if confirmed != |impact| {
        return Some(ConfirmationRequired);
      }
      connections := DropConnections(sockets, connections, p);
      sockets := DeleteSockets(sockets, p);
      if pdus[p].version != expected {
        return Some(VersionConflict);
      }
      pdus := pdus[p := pdus[p].(deleted := true, version := pdus[p].version + 1)];
      error := None;
    }

    method DeletePduTransaction(p: Id, expected: nat) returns (error: Option<Error>)
      requires Valid()
      modifies this
      ensures Valid()
      ensures error.None? <==> Succeeds(old(State()), DeletePdu(p, expected))
      ensures error.None? ==> Leaves(old(State()), DeletePdu(p, expected), State())
      ensures error.Some? ==> Refused(old(State()), DeletePdu(p, expected), error.value) && State() == old(State())
      ensures error.None? ==> !LivePdu(pdus, p)
      ensures Agrees(old(State()), Apply(old(State()), DeletePdu(p, expected)), State(), error)
    {
      hide Succeeds, Refused, Inv;
      error := DeletePduInTx(p, expected);
      EndsWell(old(State()), DeletePdu(p, expected), State(), error);
    }

    method DeletePduInTx(p: Id, expected: nat) returns (error: Option<Error>)
      modifies `sockets, `pdus
      ensures Agrees(old(State()), ErasePdu(old(State()), p, expected), State(), error)
    {
      if p !in pdus || pdus[p].deleted {
        return Some(NotFound);
      }
      var impact := Impact(sockets, connections, p);
      if |impact| > 0 {
        return Some(PduInUse);
      }
      if pdus[p].version != expected {
        return Some(VersionConflict);
      }
      pdus := pdus[p := pdus[p].(deleted := true, version := pdus[p].version + 1)];
      sockets := DeleteSockets(sockets, p);
      error := None;
    }

    method DeleteSocketTransaction(s: Id, expected: nat) returns (error: Option<Error>)
      requires Valid()
      modifies this
      ensures Valid()
      ensures error.None? <==> Succeeds(old(State()), DeleteSocket(s, expected))
      ensures error.None? ==> Leaves(old(State()), DeleteSocket(s, expected), State())
      ensures error.Some? ==> Refused(old(State()), DeleteSocket(s, expected), error.value) && State() == old(State())
      ensures error.None? ==> !LiveSocket(sockets, s)
      ensures Agrees(old(State()), Apply(old(State()), DeleteSocket(s, expected)), State(), error)
    {
      hide Succeeds, Refused, Inv;
      error := DeleteSocketInTx(s, expected);
      EndsWell(old(State()), DeleteSocket(s, expected), State(), error);
    }

    method DeleteSocketInTx(s: Id, expected: nat) returns (error: Option<Error>)
      modifies `sockets
      ensures Agrees(old(State()), EraseSocket(old(State()), s, expected), State(), error)
    {
      if s !in sockets || sockets[s].deleted || sockets[s].pdu !in pdus || pdus[sockets[s].pdu].deleted {
        return Some(NotFound);
      }
      var n := CountConnectionsBySocket(s);
      if n > 0 {
        return Some(SocketBusy);
      }
      if sockets[s].version != expected {
        return Some(VersionConflict);
      }
      sockets := sockets[s := sockets[s].(deleted := true, version := sockets[s].version + 1)];
      error := None;
    }

    method DeleteRackTransaction(r: Id, expected: nat) returns (error: Option<Error>)
      requires Valid()
      modifies this
      ensures Valid()
      ensures error.None? <==> Succeeds(old(State()), DeleteRack(r, expected))
      ensures error.None? ==> Leaves(old(State()), DeleteRack(r, expected), State())
      ensures error.Some? ==> Refused(old(State()), DeleteRack(r, expected), error.value) && State() == old(State())
      ensures error.None? ==> !LiveRack(racks, r)
      ensures Agrees(old(State()), Apply(old(State()), DeleteRack(r, expected)), State(), error)
    {
      hide Succeeds, Refused, Inv;
      error := DeleteRackInTx(r, expected);
      EndsWell(old(State()), DeleteRack(r, expected), State(), error);
    }

    method DeleteRackInTx(r: Id, expected: nat) returns (error: Option<Error>)
      modifies `racks
      ensures Agrees(old(State()), EraseRack(old(State()), r, expected), State(), error)
    {
      if r !in racks || racks[r].deleted {
        return Some(NotFound);
      }
      var n := CountPositions(r);
      if n > 0 {
        return Some(HasChildren);
      }
      n := CountPdus(r);
      if n > 0 {
        return Some(HasChildren);
      }
      if racks[r].version != expected {
        return Some(VersionConflict);
      }
      racks := racks[r := racks[r].(deleted := true, version := racks[r].version + 1)];
      error := None;
    }

    method UpdateDeviceRow(d: Id, expected: nat, newHeight: Option<int>) returns (error: Option<Error>)
      requires Valid()
      modifies this
      ensures Valid()
      ensures error.None? <==> Succeeds(old(State()), UpdateDevice(d, expected, newHeight))
      ensures error.None? ==> Leaves(old(State()), UpdateDevice(d, expected, newHeight), State())
      ensures error.Some? ==> Refused(old(State()), UpdateDevice(d, expected, newHeight), error.value)
                              && State() == old(State())
      ensures Agrees(old(State()), Apply(old(State()), UpdateDevice(d, expected, newHeight)), State(), error)
    {
      hide Succeeds, Leaves, Refused, Inv;
      OnePositionOf(State());
      error := UpdateDeviceInTx(d, expected, newHeight);
      EndsWell(old(State()), UpdateDevice(d, expected, newHeight), State(), error);
    }

    method UpdateDeviceInTx(d: Id, expected: nat, newHeight: Option<int>) returns (error: Option<Error>)
      requires OnePosition(positions)
      modifies `devices
      ensures Agrees(old(State()), EditDevice(old(State()), d, expected, newHeight), State(), error)
    {
      if d !in devices || devices[d].deleted {
        return Some(NotFound);
      }
      var height := devices[d].heightU;
      if newHeight.Some? && newHeight.value > 0 {
        var p := GetActivePosition(d);
        if p.Some? && newHeight.value != devices[d].heightU {
          return Some(DevicePositioned);
        }
        height := newHeight.value;
      }
      if devices[d].version != expected {
        return Some(VersionConflict);
      }
      devices := devices[d := devices[d].(heightU := height, version := devices[d].version + 1)];
      error := None;
    }

    method DeleteDeviceRow(d: Id, expected: nat) returns (error: Option<Error>)
      requires Valid()
      modifies this
      ensures Valid()
      ensures error.None? <==> Succeeds(old(State()), DeleteDevice(d, expected))
      ensures error.None? ==> Leaves(old(State()), DeleteDevice(d, expected), State())
      ensures error.Some? ==> Refused(old(State()), DeleteDevice(d, expected), error.value) && State() == old(State())
      ensures error.None? ==> !LiveDevice(devices, d)
      ensures Agrees(old(State()), Apply(old(State()), DeleteDevice(d, expected)), State(), error)
    {
      hide Succeeds, Refused, Inv;
      OnePositionOf(State());
      error := DeleteDeviceInTx(d, expected);
      EndsWell(old(State()), DeleteDevice(d, expected), State(), error);
    }

    method DeleteDeviceInTx(d: Id, expected: nat) returns (error: Option<Error>)
      requires OnePosition(positions)
      modifies `devices
      ensures Agrees(old(State()), EraseDevice(old(State()), d, expected), State(), error)
    {
      if d !in devices || devices[d].deleted {
        return Some(NotFound);
      }
      var p := GetActivePosition(d);
      if p.Some? {
        return Some(DevicePositioned);
      }
      if devices[d].version != expected {
        return Some(VersionConflict);
      }
      devices := devices[d := devices[d].(deleted := true, version := devices[d].version + 1)];
      error := None;
    }

    method CreatePending(id: Id, q: Placement) returns (error: Option<Error>)
      requires Valid()
      modifies this
      ensures Valid()
      ensures error.None? <==> Succeeds(old(State()), Submit(id, q))
      ensures error.None? ==> Leaves(old(State()), Submit(id, q), State())
      ensures error.Some? ==> Refused(old(State()), Submit(id, q), error.value) && State() == old(State())
      ensures Agrees(old(State()), Apply(old(State()), Submit(id, q)), State(), error)
    {
      hide Succeeds, Leaves, Refused, Inv;
      OnePositionOf(State());
      error := CreatePendingInTx(id, q);
      EndsWell(old(State()), Submit(id, q), State(), error);
    }

    method CreatePendingInTx(id: Id, q: Placement) returns (error: Option<Error>)
      requires OnePosition(positions)
      modifies `approvals
      ensures Agrees(old(State()), SubmitApproval(old(State()), id, q), State(), error)
    {
      if q.device !in devices || devices[q.device].deleted {
        return Some(NotFound);
      }
      var orientation := Normal;
      if q.orientation != Unspecified {
        orientation := q.orientation;
      }
      var source := SnapshotOf(q.device);
      var rack := q.DesiredRack();
      if rack.None? {
        return Some(InvalidResource);
      }
      if id in approvals || rack.value !in racks {
        return Some(StorageError);
      }
      var dev := devices[q.device];
      approvals := approvals[id := Approval(
        q.device, q.operation, Pending, dev.version, source, rack.value, q.startU, dev.heightU, orientation, 1)];
      error := None;
    }

    /** Claims the record, locks the device, places it: all of it, or nothing. */
    method ApproveTransaction(id: Id, decision: nat, actor: bool, position: Id, occupancy: Id)
      returns (error: Option<Error>)
      requires Valid()
      modifies this
      ensures Valid()
      ensures error.None? <==> Succeeds(old(State()), Approve(id, decision, actor, position, occupancy))
      ensures error.None? ==> Leaves(old(State()), Approve(id, decision, actor, position, occupancy), State())
      ensures error.Some? ==> Refused(old(State()), Approve(id, decision, actor, position, occupancy), error.value)
                              && State() == old(State())
      ensures Agrees(old(State()), Apply(old(State()), Approve(id, decision, actor, position, occupancy)),
                     State(), error)
    {
      hide Succeeds, Leaves, Refused, Inv;
      OnePositionOf(State());
      var saved := State();
      error := ApproveInTx(id, decision, actor, position, occupancy);
      if error.Some? {
        Rollback(saved);
      }
      EndsWell(saved, Approve(id, decision, actor, position, occupancy), State(), error);
    }

    method ApproveInTx(id: Id, decision: nat, actor: bool, position: Id, occupancy: Id) returns (error: Option<Error>)
      requires OnePosition(positions)
      modifies this
      ensures match ApproveRequest(old(State()), Approve(id, decision, actor, position, occupancy))
              case Done(db) => error == None && State() == db
              case Fail(e) => error == Some(e)
    {
      hide PlaceDevice;
      if id !in approvals {
        return Some(NotFound);
      }
      var record := approvals[id];
      var refused := CheckDecision(record, decision, actor);
      if refused.Some? {
        return refused;
      }
      var claimed := Decide(id, decision, Approved);
      if !claimed {
        return Some(VersionConflict);
      }
      if record.device !in devices || devices[record.device].deleted {
        return Some(NotFound);
      }
      if record.requestedVersion != 0 && devices[record.device].version != record.requestedVersion {
        return Some(VersionConflict);
      }
      error := PlaceInTx(ApprovedPlacement(record, position, occupancy));
    }

    method RejectTransaction(id: Id, decision: nat, actor: bool) returns (error: Option<Error>)
      requires Valid()
      modifies this
      ensures Valid()
      ensures error.None? <==> Succeeds(old(State()), Reject(id, decision, actor))
      ensures error.None? ==> Leaves(old(State()), Reject(id, decision, actor), State())
      ensures error.Some? ==> Refused(old(State()), Reject(id, decision, actor), error.value) && State() == old(State())
      ensures Agrees(old(State()), Apply(old(State()), Reject(id, decision, actor)), State(), error)
    {
      hide Succeeds, Leaves, Refused, Inv;
      error := RejectInTx(id, decision, actor);
      EndsWell(old(State()), Reject(id, decision, actor), State(), error);
    }

    method RejectInTx(id: Id, decision: nat, actor: bool) returns (error: Option<Error>)
      modifies `approvals
      ensures Agrees(old(State()), RejectRequest(old(State()), Reject(id, decision, actor)), State(), error)
    {
      if id !in approvals {
        return Some(NotFound);
      }
      var refused := CheckDecision(approvals[id], decision, actor);
      if refused.Some? {
        return refused;
      }
      var claimed := Decide(id, decision, Rejected);
      if !claimed {
        return Some(VersionConflict);
      }
      error := None;
    }
  }

  lemma EndsWell(before: Db, r: Request, after: Db, error: Option<Error>)
    requires Inv(before) && Agrees(before, Apply(before, r), after, error)
    ensures Inv(after)
    ensures error.None? <==> Succeeds(before, r)
    ensures error.None? ==> Leaves(before, r, after)
    ensures error.Some? ==> Refused(before, r, error.value) && after == before
  {
    hide Inv, Apply, Succeeds, Leaves, Refused;
    RequestOutcome(before, r);
    if Apply(before, r).Done? {
      ApplyKeepsInv(before, r);
    } else {
      RefusalIsTruthful(before, r);
    }
  }
}
