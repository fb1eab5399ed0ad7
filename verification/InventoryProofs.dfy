// Every transaction that succeeds keeps the inventory invariant.

module InventoryProofs {
  import opened Wrappers
  import opened Inventory
  import opened Transactions

  // ----- consequences and a first state -----

  lemma EmptyTablesInv()
    ensures Inv(EMPTY_DB)
  {
    assert LayoutOk(map[], map[], map[], map[]);
    assert PowerOk(map[], map[], map[], map[], map[]);
    assert RecordsOk(map[], map[], map[], []);
  }

  lemma OnePositionOf(db: Db)
    requires Inv(db)
    ensures OnePosition(db.positions)
  {
  }

  // ----- where a device sits -----

  lemma SitsAtActive(positions: map<Id, Position>, d: Id, at: Option<Snapshot>)
    requires OnePosition(positions) && SitsAt(positions, d, at)
    ensures at == ActiveAt(positions, d)
  {
    if at.Some? {
      var p :| Holds(positions, p, d) && positions[p].at == at.value;
      assert Holds(positions, p, d);
    }
  }

  lemma ActiveSitsAt(positions: map<Id, Position>, d: Id)
    ensures SitsAt(positions, d, ActiveAt(positions, d))
  {
  }

  /** `after` differs from `before` only in where device `d` sits. */
  ghost predicate OnlyMoves(before: map<Id, Position>, after: map<Id, Position>, d: Id) {
    && (forall p, e :: Holds(after, p, e) && e != d ==> Holds(before, p, e) && after[p] == before[p])
    && (forall p, e :: Holds(before, p, e) && e != d ==> Holds(after, p, e) && after[p] == before[p])
  }

  lemma SitsAtFrame(before: map<Id, Position>, after: map<Id, Position>, d: Id, e: Id, at: Option<Snapshot>)
    requires OnlyMoves(before, after, d) && e != d
    ensures SitsAt(after, e, at) <==> SitsAt(before, e, at)
  {
    if at.Some? {
      if SitsAt(before, e, at) {
        var p :| Holds(before, p, e) && before[p].at == at.value;
        assert Holds(after, p, e);
      }
      if SitsAt(after, e, at) {
        var p :| Holds(after, p, e) && after[p].at == at.value;
        assert Holds(before, p, e);
      }
    }
  }

  lemma ReleasedPositions(db: Db, d: Id)
    requires OnePosition(db.positions)
    ensures ReleaseDevice(db, d).positions.Keys == db.positions.Keys
    ensures OnlyMoves(db.positions, ReleaseDevice(db, d).positions, d)
    ensures forall p :: !Holds(ReleaseDevice(db, d).positions, p, d)
  {
    var after := ReleaseDevice(db, d).positions;
    var active := Active(db.positions, d);
    if active.Some? {
      forall p | p != active.value
        ensures !Holds(db.positions, p, d)
      {
        assert Holds(db.positions, active.value, d);
      }
      assert forall p :: p in after && p != active.value ==> after[p] == db.positions[p];
    }
  }

  lemma ReleasedOccupancies(db: Db, d: Id)
    requires OnePosition(db.positions) && MirrorOk(db.positions, db.occupancies)
    ensures ReleaseDevice(db, d).occupancies.Keys == db.occupancies.Keys
    ensures forall o :: LiveOccupancy(ReleaseDevice(db, d).occupancies, o) <==>
                        LiveOccupancy(db.occupancies, o) && db.occupancies[o].device != d
    ensures forall o :: LiveOccupancy(ReleaseDevice(db, d).occupancies, o) ==>
                        ReleaseDevice(db, d).occupancies[o] == db.occupancies[o]
  {
    var after := ReleaseDevice(db, d);
    forall o | LiveOccupancy(db.occupancies, o)
      ensures LiveOccupancy(after.occupancies, o) <==> db.occupancies[o].device != d
    {
      assert Mirrors(db.positions, db.occupancies, o, db.occupancies[o].position);
      assert Holds(db.positions, db.occupancies[o].position, db.occupancies[o].device);
    }
  }

  lemma ReleasedPositionsOk(db: Db, devices: map<Id, Device>, d: Id)
    requires PositionsOk(db.devices, db.racks, db.positions) && OnePosition(db.positions)
    requires forall e :: e in db.devices && e != d ==> e in devices && devices[e] == db.devices[e]
    ensures PositionsOk(devices, db.racks, ReleaseDevice(db, d).positions)
    ensures OnePosition(ReleaseDevice(db, d).positions)
  {
    var after := ReleaseDevice(db, d).positions;
    ReleasedPositions(db, d);
    forall p | LivePosition(after, p)
      ensures LivePosition(db.positions, p) && after[p] == db.positions[p] && after[p].device != d
    {
      assert Holds(after, p, after[p].device);
      assert Holds(db.positions, p, after[p].device);
    }
  }

  lemma ReleasedMirror(db: Db, d: Id)
    requires OnePosition(db.positions) && MirrorOk(db.positions, db.occupancies)
    ensures MirrorOk(ReleaseDevice(db, d).positions, ReleaseDevice(db, d).occupancies)
  {
    var after := ReleaseDevice(db, d);
    ReleasedPositions(db, d);
    ReleasedOccupancies(db, d);
    forall o | LiveOccupancy(after.occupancies, o)
      ensures Mirrors(after.positions, after.occupancies, o, after.occupancies[o].position)
    {
      assert Mirrors(db.positions, db.occupancies, o, db.occupancies[o].position);
      assert Holds(db.positions, db.occupancies[o].position, db.occupancies[o].device);
    }
    forall p | LivePosition(after.positions, p)
      ensures exists o :: Mirrors(after.positions, after.occupancies, o, p)
    {
      assert Holds(after.positions, p, after.positions[p].device);
      assert Holds(db.positions, p, after.positions[p].device);
      var o :| Mirrors(db.positions, db.occupancies, o, p);
      assert Mirrors(after.positions, after.occupancies, o, p);
    }
  }

  lemma ReleaseKeepsLayout(db: Db, devices: map<Id, Device>, d: Id)
    requires LayoutOk(db.devices, db.racks, db.positions, db.occupancies)
    requires forall e :: e in db.devices && e != d ==> e in devices && devices[e] == db.devices[e]
    ensures LayoutOk(devices, db.racks, ReleaseDevice(db, d).positions, ReleaseDevice(db, d).occupancies)
  {
    ReleasedPositionsOk(db, devices, d);
    ReleasedMirror(db, d);
    assert DisjointOk(ReleaseDevice(db, d).occupancies) by {
      ReleasedOccupancies(db, d);
    }
  }

  // ----- history -----

  lemma LastToAppend(history: seq<HistoryEntry>, entry: HistoryEntry, d: Id)
    ensures LastTo(history + [entry], d) == if entry.device == d then entry.to else LastTo(history, d)
  {
    assert (history + [entry])[..|history|] == history;
  }

  lemma ChainedAppend(history: seq<HistoryEntry>, entry: HistoryEntry)
    requires Chained(history) && entry.from == LastTo(history, entry.device)
    ensures Chained(history + [entry])
  {
    var longer := history + [entry];
    forall i | 0 <= i < |longer|
      ensures longer[i].from == LastTo(longer[..i], longer[i].device)
    {
      assert longer[..i] == history[..i];
      if i == |history| {
        assert history[..i] == history;
      }
    }
  }

  /** Recording where a device went keeps the whole history replayable. */
  lemma HistoryAppend(db: Db, devices: map<Id, Device>, positions: map<Id, Position>, entry: HistoryEntry)
    requires HistoryOk(db.devices, db.positions, db.history) && OnePosition(db.positions)
    requires devices.Keys == db.devices.Keys && entry.device in devices
    requires OnlyMoves(db.positions, positions, entry.device)
    requires entry.from == ActiveAt(db.positions, entry.device)
    requires SitsAt(positions, entry.device, entry.to)
    ensures HistoryOk(devices, positions, db.history + [entry])
  {
    SitsAtActive(db.positions, entry.device, LastTo(db.history, entry.device));
    ChainedAppend(db.history, entry);
    hide Chained, SitsAt, LastTo, OnlyMoves, OnePosition;
    forall e | e in devices
      ensures SitsAt(positions, e, LastTo(db.history + [entry], e))
    {
      LastToAppend(db.history, entry, e);
      if e != entry.device {
        SitsAtFrame(db.positions, positions, entry.device, e, LastTo(db.history, e));
      }
    }
  }

  // ----- approvals -----

  /** Records stay admissible when one device moves on to a later version. */
  lemma ApprovalsAdvance(db: Db, devices: map<Id, Device>, positions: map<Id, Position>, d: Id)
    requires ApprovalsOk(db.devices, db.positions, db.approvals) && d in db.devices
    requires devices.Keys == db.devices.Keys && db.devices[d].version < devices[d].version
    requires forall e :: e in devices && e != d ==> devices[e] == db.devices[e]
    requires OnlyMoves(db.positions, positions, d)
    ensures ApprovalsOk(devices, positions, db.approvals)
  {
    forall a | a in db.approvals
      ensures Admissible(devices, positions, db.approvals[a])
    {
      var rec := db.approvals[a];
      assert Admissible(db.devices, db.positions, rec);
      if rec.device != d {
        SitsAtFrame(db.positions, positions, d, rec.device, rec.source);
      }
    }
  }

  // ----- power -----

  lemma ConnectedDeviceIsPlaced(db: Db, c: Id)
    requires ConnectionsOk(db.positions, db.pdus, db.sockets, db.connections) && LiveConnection(db.connections, c)
    ensures Active(db.positions, db.connections[c].device).Some?
  {
    var rack := db.pdus[db.sockets[db.connections[c].socket].pdu].rack;
    assert SitsIn(db.positions, db.connections[c].device, rack);
  }

  /** Assigning needs no power check of its own: a powered device is placed, and a placed device is running. */
  lemma AssignableIsUnpowered(db: Db, d: Id)
    requires Inv(db) && d in db.devices && db.devices[d].lifecycle != Running
    ensures Active(db.positions, d).None? && !Powered(db.connections, d)
  {
    forall c | LiveConnection(db.connections, c)
      ensures db.connections[c].device != d
    {
      ConnectedDeviceIsPlaced(db, c);
    }
  }

  /** A device that is not powered may move without touching the power distribution. */
  lemma MoveKeepsPower(db: Db, positions: map<Id, Position>, d: Id)
    requires PowerOk(db.racks, db.positions, db.pdus, db.sockets, db.connections)
    requires OnlyMoves(db.positions, positions, d) && !Powered(db.connections, d)
    ensures PowerOk(db.racks, positions, db.pdus, db.sockets, db.connections)
  {
    forall c | LiveConnection(db.connections, c)
      ensures SitsIn(positions, db.connections[c].device, db.pdus[db.sockets[db.connections[c].socket].pdu].rack)
    {
      var rack := db.pdus[db.sockets[db.connections[c].socket].pdu].rack;
      var p :| Holds(db.positions, p, db.connections[c].device) && db.positions[p].at.rack == rack;
      assert Holds(positions, p, db.connections[c].device);
    }
  }

  // ----- placing -----

  /** What placing needs to know of the rack and the device for the invariant to survive. */
  ghost predicate Placeable(db: Db, q: Placement, at: Snapshot) {
    && LiveDevice(db.devices, q.device)
    && LiveRack(db.racks, at.rack)
    && at.heightU == db.devices[q.device].heightU
    && 1 <= at.startU && 1 <= at.heightU && at.endU == at.startU + at.heightU - 1
    && !Conflict(db.occupancies, q.device, at.rack, at.startU, at.endU)
    && !Powered(db.connections, q.device)
    && q.position !in db.positions && q.occupancy !in db.occupancies
  }

  /** A device without a position may take a free U range. */
  lemma InsertKeepsLayout(db: Db, devices: map<Id, Device>, d: Id, at: Snapshot, position: Id, occupancy: Id)
    requires LayoutOk(devices, db.racks, db.positions, db.occupancies)
    requires position !in db.positions && occupancy !in db.occupancies
    requires forall p :: !Holds(db.positions, p, d)
    requires LiveDevice(devices, d) && devices[d].lifecycle == Running && devices[d].heightU == at.heightU
    requires LiveRack(db.racks, at.rack)
    requires 1 <= at.startU && 1 <= at.heightU && at.endU == at.startU + at.heightU - 1
    requires !Conflict(db.occupancies, d, at.rack, at.startU, at.endU)
    ensures var after := InsertPosition(db, d, at, position, occupancy);
            LayoutOk(devices, db.racks, after.positions, after.occupancies)
  {
    var after := InsertPosition(db, d, at, position, occupancy);
    forall p | LivePosition(after.positions, p) && p != position
      ensures after.positions[p].device != d
    {
      assert !Holds(db.positions, p, d);
    }
    InsertedMirror(db, d, at, position, occupancy);
    InsertedDisjoint(db, d, at, position, occupancy);
  }

  /** The overlap check before an insertion makes the database's exclusion constraint redundant. */
  lemma InsertedDisjoint(db: Db, d: Id, at: Snapshot, position: Id, occupancy: Id)
    requires MirrorOk(db.positions, db.occupancies) && DisjointOk(db.occupancies)
    requires occupancy !in db.occupancies
    requires forall p :: !Holds(db.positions, p, d)
    requires !Conflict(db.occupancies, d, at.rack, at.startU, at.endU)
    ensures DisjointOk(InsertPosition(db, d, at, position, occupancy).occupancies)
  {
    forall o | LiveOccupancy(db.occupancies, o)
      ensures db.occupancies[o].device != d
    {
      assert Mirrors(db.positions, db.occupancies, o, db.occupancies[o].position);
      assert !Holds(db.positions, db.occupancies[o].position, d);
    }
  }

  lemma InsertedMirror(db: Db, d: Id, at: Snapshot, position: Id, occupancy: Id)
    requires MirrorOk(db.positions, db.occupancies)
    requires position !in db.positions && occupancy !in db.occupancies
    ensures var after := InsertPosition(db, d, at, position, occupancy); MirrorOk(after.positions, after.occupancies)
  {
    var after := InsertPosition(db, d, at, position, occupancy);
    forall o | LiveOccupancy(after.occupancies, o)
      ensures Mirrors(after.positions, after.occupancies, o, after.occupancies[o].position)
    {
      assert o != occupancy ==> Mirrors(db.positions, db.occupancies, o, db.occupancies[o].position);
    }
    forall p | LivePosition(after.positions, p)
      ensures exists o :: Mirrors(after.positions, after.occupancies, o, p)
    {
      if p == position {
        assert Mirrors(after.positions, after.occupancies, occupancy, p);
      } else {
        assert LivePosition(db.positions, p);
        var o :| Mirrors(db.positions, db.occupancies, o, p);
        assert Mirrors(after.positions, after.occupancies, o, p);
      }
    }
  }

  lemma PlacedLayout(db: Db, q: Placement, at: Snapshot, from: Option<Snapshot>)
    requires LayoutOk(db.devices, db.racks, db.positions, db.occupancies) && Placeable(db, q, at)
    ensures var after := PlaceEffect(db, q, at, from);
            LayoutOk(after.devices, after.racks, after.positions, after.occupancies)
  {
    var devices := SetLifecycle(db.devices, q.device, Running);
    ReleaseKeepsLayout(db, devices, q.device);
    ReleasedPositions(db, q.device);
    ReleasedOccupancies(db, q.device);
    InsertKeepsLayout(ReleaseDevice(db, q.device), devices, q.device, at, q.position, q.occupancy);
  }

  lemma PlacedPosition(db: Db, q: Placement, at: Snapshot, from: Option<Snapshot>)
    requires OnePosition(db.positions) && Placeable(db, q, at)
    ensures var after := PlaceEffect(db, q, at, from).positions;
            && OnlyMoves(db.positions, after, q.device)
            && SitsAt(after, q.device, Some(at))
            && (forall p :: Holds(after, p, q.device) <==> p == q.position)
  {
    ReleasedPositions(db, q.device);
    var released := ReleaseDevice(db, q.device).positions;
    var after := PlaceEffect(db, q, at, from).positions;
    forall p | p != q.position
      ensures !Holds(after, p, q.device)
    {
      assert !Holds(released, p, q.device);
    }
    assert Holds(after, q.position, q.device);
  }

  /** A device may move if the move is recorded and its version moves on. */
  lemma MoveKeepsRecords(db: Db, devices: map<Id, Device>, positions: map<Id, Position>, entry: HistoryEntry)
    requires OnePosition(db.positions) && RecordsOk(db.devices, db.positions, db.approvals, db.history)
    requires entry.device in db.devices && OnlyMoves(db.positions, positions, entry.device)
    requires entry.from == ActiveAt(db.positions, entry.device) && SitsAt(positions, entry.device, entry.to)
    requires devices.Keys == db.devices.Keys && db.devices[entry.device].version < devices[entry.device].version
    requires forall e :: e in db.devices && e != entry.device ==> devices[e] == db.devices[e]
    ensures RecordsOk(devices, positions, db.approvals, db.history + [entry])
  {
    ApprovalsAdvance(db, devices, positions, entry.device);
    HistoryAppend(db, devices, positions, entry);
  }

  lemma PlaceKeepsInv(db: Db, q: Placement, at: Snapshot, from: Option<Snapshot>)
    requires Inv(db) && Placeable(db, q, at)
    requires from == ActiveAt(db.positions, q.device)
    ensures Inv(PlaceEffect(db, q, at, from))
  {
    hide PositionsOk, MirrorOk, DisjointOk, PdusOk, SocketsOk, ConnectionsOk, StatusOk;
    hide DevicesOk, ApprovalsOk, HistoryOk;
    var after := PlaceEffect(db, q, at, from);
    PlacedLayout(db, q, at, from);
    assert PowerOk(db.racks, after.positions, db.pdus, db.sockets, db.connections) by {
      PlacedPosition(db, q, at, from);
      MoveKeepsPower(db, after.positions, q.device);
    }
    assert RecordsOk(after.devices, after.positions, db.approvals, after.history) by {
      PlacedPosition(db, q, at, from);
      MoveKeepsRecords(db, after.devices, after.positions, HistoryEntry(q.device, q.operation, from, Some(at)));
    }
  }

  lemma RemoveKeepsInv(db: Db, d: Id, from: Option<Snapshot>)
    requires Inv(db) && LiveDevice(db.devices, d) && !Powered(db.connections, d)
    requires from == ActiveAt(db.positions, d)
    ensures Inv(RemoveEffect(db, d, from))
  {
    hide PositionsOk, MirrorOk, DisjointOk, PdusOk, SocketsOk, ConnectionsOk, StatusOk;
    hide DevicesOk, ApprovalsOk, HistoryOk;
    var after := RemoveEffect(db, d, from);
    ReleaseKeepsLayout(db, after.devices, d);
    assert PowerOk(db.racks, after.positions, db.pdus, db.sockets, db.connections) by {
      ReleasedPositions(db, d);
      MoveKeepsPower(db, after.positions, d);
    }
    assert RecordsOk(after.devices, after.positions, db.approvals, after.history) by {
      ReleasedPositions(db, d);
      MoveKeepsRecords(db, after.devices, after.positions, HistoryEntry(d, Decommission, from, None));
    }
  }

  lemma PlaceDeviceKeepsInv(db: Db, q: Placement)
    requires Inv(db) && PlaceDevice(db, q).Done?
    ensures Inv(PlaceDevice(db, q).db)
  {
    var dev := db.devices[q.device];
    if q.operation != Move {
      AssignableIsUnpowered(db, q.device);
    }
    var rack := q.DesiredRack().value;
    PlaceKeepsInv(db, q, TargetSnapshot(dev, rack, db.racks[rack], q.startU, q.orientation),
                  ActiveAt(db.positions, q.device));
  }

  // ----- devices -----

  lemma NewDeviceKeepsRecords(db: Db, d: Id, dev: Device)
    requires RecordsOk(db.devices, db.positions, db.approvals, db.history)
    requires d !in db.devices && dev.version == 1 && forall p :: !Holds(db.positions, p, d)
    ensures RecordsOk(db.devices[d := dev], db.positions, db.approvals, db.history)
  {
    var devices := db.devices[d := dev];
    assert forall a :: a in db.approvals ==> Admissible(db.devices, db.positions, db.approvals[a]);
    LastToUnknown(db.history, d);
  }

  lemma LastToUnknown(history: seq<HistoryEntry>, d: Id)
    requires forall i :: 0 <= i < |history| ==> history[i].device != d
    ensures LastTo(history, d) == None
  {
  }

  lemma NewDeviceHasNoPlace(db: Db, d: Id, dev: Device)
    requires PositionsOk(db.devices, db.racks, db.positions) && d !in db.devices
    ensures PositionsOk(db.devices[d := dev], db.racks, db.positions)
    ensures forall p :: !Holds(db.positions, p, d)
  {
  }

  lemma NewDeviceKeepsInv(db: Db, d: Id, dev: Device)
    requires Inv(db) && d !in db.devices && dev.version == 1
    ensures Inv(db.(devices := db.devices[d := dev]))
  {
    hide PositionsOk, OnePosition, MirrorOk, DisjointOk, PowerOk, RecordsOk;
    NewDeviceHasNoPlace(db, d, dev);
    NewDeviceKeepsRecords(db, d, dev);
  }

  lemma EditKeepsPositions(db: Db, d: Id, dev: Device)
    requires PositionsOk(db.devices, db.racks, db.positions) && d in db.devices
    requires Active(db.positions, d).None?
             || (dev.heightU == db.devices[d].heightU && dev.lifecycle == db.devices[d].lifecycle
                 && dev.deleted == db.devices[d].deleted)
    ensures PositionsOk(db.devices[d := dev], db.racks, db.positions)
  {
    forall p | LivePosition(db.positions, p) && db.positions[p].device == d
      ensures Active(db.positions, d).Some?
    {
      assert Holds(db.positions, p, d);
    }
  }

  lemma EditKeepsHistory(db: Db, d: Id, dev: Device)
    requires HistoryOk(db.devices, db.positions, db.history) && DevicesOk(db.devices)
    requires d in db.devices && db.devices[d].version < dev.version
    ensures HistoryOk(db.devices[d := dev], db.positions, db.history) && DevicesOk(db.devices[d := dev])
  {
  }

  /** A device without a position may be changed at will, if its version moves on. */
  lemma EditKeepsInv(db: Db, d: Id, dev: Device)
    requires Inv(db) && d in db.devices && db.devices[d].version < dev.version
    requires Active(db.positions, d).None?
             || (dev.heightU == db.devices[d].heightU && dev.lifecycle == db.devices[d].lifecycle
                 && dev.deleted == db.devices[d].deleted)
    ensures Inv(db.(devices := db.devices[d := dev]))
  {
    EditKeepsPositions(db, d, dev);
    EditKeepsHistory(db, d, dev);
    ApprovalsAdvance(db, db.devices[d := dev], db.positions, d);
    hide PositionsOk, OnePosition, MirrorOk, DisjointOk, PowerOk, DevicesOk, ApprovalsOk, HistoryOk;
  }

  // ----- racks and PDUs -----

  lemma RackKeepsInv(db: Db, r: Id, rack: Rack)
    requires Inv(db)
    requires rack.deleted ==> !HasPositions(db.positions, r) && !HasPdus(db.pdus, r)
    ensures Inv(db.(racks := db.racks[r := rack]))
  {
  }

  lemma NewPduKeepsInv(db: Db, p: Id, rack: Id)
    requires Inv(db) && p !in db.pdus && LiveRack(db.racks, rack)
    ensures Inv(db.(pdus := db.pdus[p := Pdu(rack, 1, false)]))
  {
    hide PdusOk, SocketsOk, ConnectionsOk, StatusOk, LayoutOk, RecordsOk;
    NewPduKeepsPower(db, p, rack);
  }

  lemma NewPduKeepsPower(db: Db, p: Id, rack: Id)
    requires p !in db.pdus && LiveRack(db.racks, rack)
    ensures var pdus := db.pdus[p := Pdu(rack, 1, false)];
            && (PdusOk(db.racks, db.pdus) ==> PdusOk(db.racks, pdus))
            && (SocketsOk(db.pdus, db.sockets) ==> SocketsOk(pdus, db.sockets))
            && (ConnectionsOk(db.positions, db.pdus, db.sockets, db.connections) ==>
                  ConnectionsOk(db.positions, pdus, db.sockets, db.connections))
  {
    hide SitsIn;
    var pdus := db.pdus[p := Pdu(rack, 1, false)];
    assert forall q :: LivePdu(db.pdus, q) ==> LivePdu(pdus, q) && pdus[q] == db.pdus[q];
  }

  /** Nothing in the power distribution depends on the version of a PDU. */
  lemma BumpKeepsPower(db: Db, p: Id)
    requires p in db.pdus
    ensures PdusOk(db.racks, db.pdus) ==> PdusOk(db.racks, BumpPdu(db, p).pdus)
    ensures SocketsOk(db.pdus, db.sockets) ==> SocketsOk(BumpPdu(db, p).pdus, db.sockets)
    ensures ConnectionsOk(db.positions, db.pdus, db.sockets, db.connections) ==>
              ConnectionsOk(db.positions, BumpPdu(db, p).pdus, db.sockets, db.connections)
  {
    hide SitsIn;
    var pdus := BumpPdu(db, p).pdus;
    assert forall q :: LivePdu(pdus, q) <==> LivePdu(db.pdus, q);
    assert forall q :: q in db.pdus ==> q in pdus && pdus[q].rack == db.pdus[q].rack;
  }

  lemma BumpKeepsInv(db: Db, p: Id)
    requires Inv(db) && p in db.pdus
    ensures Inv(BumpPdu(db, p))
  {
    hide PdusOk, SocketsOk, ConnectionsOk, StatusOk, LayoutOk, RecordsOk;
    BumpKeepsPower(db, p);
  }

  /** Retiring a PDU with its sockets is safe once none of its sockets is in use. */
  lemma RetireKeepsPower(db: Db, p: Id, connections: map<Id, Connection>)
    requires PowerOk(db.racks, db.positions, db.pdus, db.sockets, db.connections) && LivePdu(db.pdus, p)
    requires forall c :: LiveConnection(connections, c) <==>
                         LiveConnection(db.connections, c) && c !in Impact(db.sockets, db.connections, p)
    requires forall c :: LiveConnection(connections, c) ==> connections[c] == db.connections[c]
    ensures PowerOk(db.racks, db.positions, RetirePdu(db, p).pdus, RetirePdu(db, p).sockets, connections)
  {
    var after := RetirePdu(db, p);
    assert ConnectionsOk(db.positions, after.pdus, after.sockets, connections);
    forall s | LiveSocket(after.sockets, s) && after.sockets[s].status == SocketConnected
      ensures SocketInUse(connections, s)
    {
      assert LiveSocket(db.sockets, s);
      var c :| LiveConnection(db.connections, c) && db.connections[c].socket == s;
      assert LiveConnection(connections, c);
    }
  }

  lemma ArchiveKeepsPower(db: Db, p: Id)
    requires PowerOk(db.racks, db.positions, db.pdus, db.sockets, db.connections) && LivePdu(db.pdus, p)
    ensures var after := ArchiveEffect(db, p);
            PowerOk(db.racks, db.positions, after.pdus, after.sockets, after.connections)
  {
    RetireKeepsPower(db, p, DropConnections(db.sockets, db.connections, p));
  }

  // ----- sockets and connections -----

  /** A free socket may be added, renumbered or deleted. */
  lemma SocketKeepsPower(db: Db, s: Id, socket: Socket)
    requires PowerOk(db.racks, db.positions, db.pdus, db.sockets, db.connections)
    requires s in db.sockets && !socket.deleted ==>
               !db.sockets[s].deleted && socket.pdu == db.sockets[s].pdu && socket.status == db.sockets[s].status
    requires s !in db.sockets ==> socket.status == SocketAvailable
    requires !socket.deleted ==> LivePdu(db.pdus, socket.pdu) && !NumberTaken(db.sockets, socket.pdu, socket.number, s)
    requires socket.deleted ==> !SocketInUse(db.connections, s)
    ensures PowerOk(db.racks, db.positions, db.pdus, db.sockets[s := socket], db.connections)
  {
    var sockets := db.sockets[s := socket];
    assert ConnectionsOk(db.positions, db.pdus, sockets, db.connections);
    assert StatusOk(sockets, db.connections);
  }

  lemma ConnectKeepsStatus(db: Db, r: Request)
    requires ConnectionsOk(db.positions, db.pdus, db.sockets, db.connections) && StatusOk(db.sockets, db.connections)
    requires r.Connect? && ConnectDevice(db, r).Done?
    ensures var after := ConnectDevice(db, r).db; StatusOk(after.sockets, after.connections)
  {
    var after := ConnectDevice(db, r).db;
    forall s | LiveSocket(after.sockets, s) && after.sockets[s].status == SocketConnected
      ensures SocketInUse(after.connections, s)
    {
      if s == r.socket {
        assert LiveConnection(after.connections, r.id);
      } else {
        var c :| LiveConnection(db.connections, c) && db.connections[c].socket == s;
        assert LiveConnection(after.connections, c);
      }
    }
    forall c | LiveConnection(after.connections, c) && c != r.id
      ensures db.connections[c].socket != r.socket
      ensures db.connections[c].device == r.device ==> db.connections[c].role != ResolveRole(r.role)
    {
      assert LiveConnection(db.connections, c);
    }
  }

  lemma ConnectKeepsPower(db: Db, r: Request)
    requires PowerOk(db.racks, db.positions, db.pdus, db.sockets, db.connections)
    requires r.Connect? && ConnectDevice(db, r).Done?
    ensures var after := ConnectDevice(db, r).db;
            PowerOk(db.racks, db.positions, db.pdus, after.sockets, after.connections)
  {
    ConnectKeepsConnections(db, r);
    ConnectKeepsStatus(db, r);
  }

  lemma ConnectKeepsConnections(db: Db, r: Request)
    requires ConnectionsOk(db.positions, db.pdus, db.sockets, db.connections)
    requires r.Connect? && ConnectDevice(db, r).Done?
    ensures var after := ConnectDevice(db, r).db;
            ConnectionsOk(db.positions, db.pdus, after.sockets, after.connections)
  {
    assert Holds(db.positions, Active(db.positions, r.device).value, r.device);
  }

  lemma DisconnectKeepsConnections(db: Db, c: Id, expected: nat)
    requires ConnectionsOk(db.positions, db.pdus, db.sockets, db.connections) && StatusOk(db.sockets, db.connections)
    requires DisconnectDevice(db, c, expected).Done?
    ensures var after := DisconnectDevice(db, c, expected).db;
            ConnectionsOk(db.positions, db.pdus, after.sockets, after.connections)
  {
  }

  lemma DisconnectKeepsStatus(db: Db, c: Id, expected: nat)
    requires ConnectionsOk(db.positions, db.pdus, db.sockets, db.connections) && StatusOk(db.sockets, db.connections)
    requires DisconnectDevice(db, c, expected).Done?
    ensures var after := DisconnectDevice(db, c, expected).db; StatusOk(after.sockets, after.connections)
  {
    var after := DisconnectDevice(db, c, expected).db;
    forall s | LiveSocket(after.sockets, s) && after.sockets[s].status == SocketConnected
      ensures SocketInUse(after.connections, s)
    {
      var e :| LiveConnection(db.connections, e) && db.connections[e].socket == s;
      assert LiveConnection(after.connections, e);
    }
  }

  lemma DisconnectKeepsSockets(db: Db, c: Id, expected: nat)
    requires SocketsOk(db.pdus, db.sockets) && DisconnectDevice(db, c, expected).Done?
    ensures SocketsOk(db.pdus, DisconnectDevice(db, c, expected).db.sockets)
  {
  }

  lemma DisconnectKeepsPower(db: Db, c: Id, expected: nat)
    requires PowerOk(db.racks, db.positions, db.pdus, db.sockets, db.connections)
    requires DisconnectDevice(db, c, expected).Done?
    ensures var after := DisconnectDevice(db, c, expected).db;
            PowerOk(db.racks, db.positions, db.pdus, after.sockets, after.connections)
  {
    hide DisconnectDevice, ConnectionsOk, StatusOk, SocketsOk, PdusOk;
    DisconnectKeepsConnections(db, c, expected);
    DisconnectKeepsStatus(db, c, expected);
    DisconnectKeepsSockets(db, c, expected);
  }

  // ----- approvals -----

  lemma NewApprovalKeepsInv(db: Db, id: Id, a: Approval)
    requires Inv(db) && id !in db.approvals && a.status == Pending && Admissible(db.devices, db.positions, a)
    ensures Inv(db.(approvals := db.approvals[id := a]))
  {
  }

  lemma RejectKeepsRecords(db: Db, a: Id)
    requires RecordsOk(db.devices, db.positions, db.approvals, db.history)
    requires a in db.approvals && db.approvals[a].status == Pending
    ensures RecordsOk(db.devices, db.positions, DecideEffect(db, a, Rejected).approvals, db.history)
  {
    var after := DecideEffect(db, a, Rejected);
    forall e | e in after.approvals
      ensures Admissible(db.devices, db.positions, after.approvals[e])
    {
      assert Admissible(db.devices, db.positions, db.approvals[e]);
    }
  }

  /** A placement does not look at the approval records, so deciding one commutes with it. */
  lemma PlaceCommutesWithDecision(db: Db, q: Placement, a: Id, status: ApprovalStatus)
    requires a in db.approvals
    ensures PlaceDevice(DecideEffect(db, a, status), q) ==
            match PlaceDevice(db, q)
            case Done(placed) => Done(DecideEffect(placed, a, status))
            case Fail(error) => Fail(error)
  {
    RefusalIgnoresDecision(db, q, a, status);
    if PlaceDevice(db, q).Done? {
      PlacedWithDecision(db, q, a, status);
    }
    hide PlaceDevice;
  }

  lemma RefusalIgnoresDecision(db: Db, q: Placement, a: Id, status: ApprovalStatus)
    requires a in db.approvals
    ensures PlaceDevice(db, q).Done? <==> PlaceDevice(DecideEffect(db, a, status), q).Done?
    ensures PlaceDevice(db, q).Fail? ==> PlaceDevice(DecideEffect(db, a, status), q) == PlaceDevice(db, q)
    ensures PlaceDevice(db, q).Done? ==> a in PlaceDevice(db, q).db.approvals
  {
    hide CheckLifecycle, CheckRack, ActiveAt, Powered, Conflict, TargetSnapshot, LiveDevice, LiveRack;
    hide ReleaseDevice, SetLifecycle;
    ReleaseCommutesWithDecision(db, q.device, a, status);
  }

  lemma PlacedWithDecision(db: Db, q: Placement, a: Id, status: ApprovalStatus)
    requires a in db.approvals && PlaceDevice(db, q).Done? && a in PlaceDevice(db, q).db.approvals
    requires PlaceDevice(DecideEffect(db, a, status), q).Done?
    ensures PlaceDevice(DecideEffect(db, a, status), q).db == DecideEffect(PlaceDevice(db, q).db, a, status)
  {
    var decided := DecideEffect(db, a, status);
    assert decided == db.(approvals := decided.approvals);
    hide CheckLifecycle, CheckRack, ActiveAt, Powered, Conflict, TargetSnapshot, PlaceEffect, DecideEffect;
    var rack := q.DesiredRack().value;
    var at := TargetSnapshot(db.devices[q.device], rack, db.racks[rack], q.startU, q.orientation);
    EffectCommutesWithDecision(db, q, at, ActiveAt(db.positions, q.device), a, status);
  }

  lemma EffectCommutesWithDecision(
    db: Db, q: Placement, at: Snapshot, from: Option<Snapshot>, a: Id, status: ApprovalStatus)
    requires a in db.approvals && q.device in db.devices
    ensures PlaceEffect(db, q, at, from).approvals == db.approvals
    ensures PlaceEffect(DecideEffect(db, a, status), q, at, from) ==
            DecideEffect(PlaceEffect(db, q, at, from), a, status)
  {
    hide SetLifecycle, ReleaseDevice;
    ReleaseCommutesWithDecision(db, q.device, a, status);
  }

  lemma ReleaseCommutesWithDecision(db: Db, d: Id, a: Id, status: ApprovalStatus)
    requires a in db.approvals
    ensures ReleaseDevice(db, d).approvals == db.approvals
    ensures ReleaseDevice(DecideEffect(db, a, status), d) == DecideEffect(ReleaseDevice(db, d), a, status)
  {
    hide ReleaseOccupancies, Active;
  }

  lemma ApproveKeepsRecords(db: Db, placed: Db, a: Id)
    requires RecordsOk(db.devices, db.positions, db.approvals, db.history)
    requires RecordsOk(placed.devices, placed.positions, placed.approvals, placed.history)
    requires placed.approvals == db.approvals && a in db.approvals
    requires db.approvals[a].requestedVersion == db.devices[db.approvals[a].device].version
    requires db.approvals[a].requestedVersion < placed.devices[db.approvals[a].device].version
    ensures var after := DecideEffect(placed, a, Approved);
            RecordsOk(placed.devices, placed.positions, after.approvals, placed.history)
  {
    var after := DecideEffect(placed, a, Approved);
    forall e | e in after.approvals
      ensures Admissible(placed.devices, placed.positions, after.approvals[e])
    {
      assert Admissible(placed.devices, placed.positions, placed.approvals[e]);
    }
  }

  lemma RecordIsAdmissible(db: Db, a: Id)
    requires Inv(db) && a in db.approvals
    ensures Admissible(db.devices, db.positions, db.approvals[a])
  {
  }

  lemma PlaceAdvancesDevice(db: Db, q: Placement)
    requires PlaceDevice(db, q).Done?
    ensures var placed := PlaceDevice(db, q).db;
            && placed.approvals == db.approvals
            && q.device in db.devices && placed.devices == SetLifecycle(db.devices, q.device, Running)
  {
  }

  lemma ApproveKeepsInv(db: Db, r: Request)
    requires Inv(db) && r.Approve? && ApproveRequest(db, r).Done?
    ensures Inv(ApproveRequest(db, r).db)
  {
    hide Inv, PlaceDevice;
    var a := db.approvals[r.id];
    var q := ApprovedPlacement(a, r.position, r.occupancy);
    RecordIsAdmissible(db, r.id);
    PlaceCommutesWithDecision(db, q, r.id, Approved);
    PlaceAdvancesDevice(db, q);
    PlaceDeviceKeepsInv(db, q);
    PlacedDecisionKeepsInv(db, PlaceDevice(db, q).db, r.id);
  }

  lemma PlacedDecisionKeepsInv(db: Db, placed: Db, a: Id)
    requires Inv(db) && Inv(placed)
    requires placed.approvals == db.approvals && a in db.approvals
    requires db.approvals[a].device in db.devices && db.approvals[a].device in placed.devices
    requires db.approvals[a].requestedVersion == db.devices[db.approvals[a].device].version
    requires db.approvals[a].requestedVersion < placed.devices[db.approvals[a].device].version
    ensures Inv(DecideEffect(placed, a, Approved))
  {
    ApproveKeepsRecords(db, placed, a);
  }

  lemma RejectKeepsInv(db: Db, a: Id)
    requires Inv(db) && a in db.approvals && db.approvals[a].status == Pending
    ensures Inv(DecideEffect(db, a, Rejected))
  {
    RejectKeepsRecords(db, a);
  }

  // ----- all transactions -----

  lemma SubmitKeepsInv(db: Db, id: Id, q: Placement)
    requires Inv(db) && SubmitApproval(db, id, q).Done?
    ensures Inv(SubmitApproval(db, id, q).db)
  {
    var a := NewApproval(q, q.DesiredRack().value, db.devices[q.device], ActiveAt(db.positions, q.device));
    ActiveSitsAt(db.positions, q.device);
    NewApprovalKeepsInv(db, id, a);
  }

  lemma PowerChangeKeepsInv(db: Db, after: Db)
    requires Inv(db)
    requires PowerOk(db.racks, db.positions, after.pdus, after.sockets, after.connections)
    requires after == db.(pdus := after.pdus, sockets := after.sockets, connections := after.connections)
    ensures Inv(after)
  {
  }

  lemma ArchiveKeepsInv(db: Db, p: Id)
    requires Inv(db) && LivePdu(db.pdus, p)
    ensures Inv(ArchiveEffect(db, p))
  {
    ArchiveKeepsPower(db, p);
    PowerChangeKeepsInv(db, ArchiveEffect(db, p));
  }

  lemma RetireKeepsInv(db: Db, p: Id)
    requires Inv(db) && LivePdu(db.pdus, p) && Impact(db.sockets, db.connections, p) == {}
    ensures Inv(RetirePdu(db, p))
  {
    RetireKeepsPower(db, p, db.connections);
    PowerChangeKeepsInv(db, RetirePdu(db, p));
  }

  lemma SocketChangeKeepsInv(db: Db, s: Id, socket: Socket)
    requires Inv(db)
    requires s in db.sockets && !socket.deleted ==>
               !db.sockets[s].deleted && socket.pdu == db.sockets[s].pdu && socket.status == db.sockets[s].status
    requires s !in db.sockets ==> socket.status == SocketAvailable
    requires !socket.deleted ==> LivePdu(db.pdus, socket.pdu) && !NumberTaken(db.sockets, socket.pdu, socket.number, s)
    requires socket.deleted ==> !SocketInUse(db.connections, s)
    ensures Inv(db.(sockets := db.sockets[s := socket]))
  {
    SocketKeepsPower(db, s, socket);
  }

  lemma SocketKeepsInv(db: Db, r: Request)
    requires Inv(db) && (r.CreateSocket? || r.UpdateSocket? || r.DeleteSocket?)
    requires Apply(db, r).Done?
    ensures Inv(Apply(db, r).db)
  {
    hide LayoutOk, PowerOk, RecordsOk;
    SocketChangeKeepsInv(db, r.id, Apply(db, r).db.sockets[r.id]);
  }

  lemma ConnectKeepsInv(db: Db, r: Request)
    requires Inv(db) && (r.Connect? || r.Disconnect?) && Apply(db, r).Done?
    ensures Inv(Apply(db, r).db)
  {
    hide PositionsOk, MirrorOk, DisjointOk, PdusOk, SocketsOk, ConnectionsOk, StatusOk;
    hide DevicesOk, ApprovalsOk, HistoryOk;
    if r.Connect? {
      ConnectKeepsPower(db, r);
    } else {
      DisconnectKeepsPower(db, r.id, r.expected);
    }
    PowerChangeKeepsInv(db, Apply(db, r).db);
  }

  lemma DeviceKeepsInv(db: Db, r: Request)
    requires Inv(db) && (r.CreateDevice? || r.UpdateDevice? || r.DeleteDevice?) && Apply(db, r).Done?
    ensures Inv(Apply(db, r).db)
  {
    hide LayoutOk, PowerOk, RecordsOk;
    var dev := Apply(db, r).db.devices[r.id];
    if r.CreateDevice? {
      NewDeviceKeepsInv(db, r.id, dev);
    } else {
      EditKeepsInv(db, r.id, dev);
    }
  }

  lemma RackChangeKeepsInv(db: Db, r: Request)
    requires Inv(db) && (r.CreateRack? || r.UpdateRack? || r.DeleteRack?) && Apply(db, r).Done?
    ensures Inv(Apply(db, r).db)
  {
    RackKeepsInv(db, r.id, Apply(db, r).db.racks[r.id]);
  }

  /** Every transaction that succeeds keeps the invariant. */
  lemma ApplyKeepsInv(db: Db, r: Request)
    requires Inv(db) && Apply(db, r).Done?
    ensures Inv(Apply(db, r).db)
  {
    hide LayoutOk, PowerOk, RecordsOk;
    match r
    case CreateDevice(_, _, _, _) => DeviceKeepsInv(db, r);
    case UpdateDevice(_, _, _) => DeviceKeepsInv(db, r);
    case DeleteDevice(_, _) => DeviceKeepsInv(db, r);
    case Place(q) => PlaceDeviceKeepsInv(db, q);
    case Remove(d) => RemoveKeepsInv(db, d, ActiveAt(db.positions, d));
    case CreateRack(_, _, _, _, _) => RackChangeKeepsInv(db, r);
    case UpdateRack(_, _, _, _) => RackChangeKeepsInv(db, r);
    case DeleteRack(_, _) => RackChangeKeepsInv(db, r);
    case CreatePdu(p, rack) => NewPduKeepsInv(db, p, rack);
    case UpdatePdu(p) => BumpKeepsInv(db, p);
    case DeletePdu(p, _) => RetireKeepsInv(db, p);
    case ForceArchive(p, _, _, _) => ArchiveKeepsInv(db, p);
    case CreateSocket(_, _, _) => SocketKeepsInv(db, r);
    case UpdateSocket(_, _) => SocketKeepsInv(db, r);
    case DeleteSocket(_, _) => SocketKeepsInv(db, r);
    case Connect(_, _, _, _) => ConnectKeepsInv(db, r);
    case Disconnect(_, _) => ConnectKeepsInv(db, r);
    case Submit(id, q) => SubmitKeepsInv(db, id, q);
    case Approve(_, _, _, _, _) => ApproveKeepsInv(db, r);
    case Reject(a, _, _) => RejectKeepsInv(db, a);
  }
}
