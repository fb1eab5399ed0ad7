// Every concurrent execution is a serial one: whatever commits, commits as if it had run
// alone on the tables it found at that moment. Hence the invariant holds throughout.

module Refinement {
  import opened Wrappers
  import opened Inventory
  import opened Transactions
  import opened InventoryProofs
  import opened Interleaving
  import opened Interference

  /** The thread has taken the lock `k`. */
  ghost predicate HasTaken(th: Thread, k: Key) {
    exists i :: 0 <= i < th.pc <= |Script(th.request)| && KeyOf(th.request, Script(th.request)[i], th.locals) == Some(k)
  }

  /** The thread knows what its script has read so far. */
  ghost predicate Informed(db: Db, th: Thread) {
    && th.pc < |Script(th.request)|
    && SeenVersion(db, th.request)
    && (forall i :: 0 <= i < th.pc ==> Known(db, th.request, Script(th.request)[i], th.locals))
  }

  ghost predicate ThreadsOk(s: System) {
    && (forall t :: t in s.threads ==> Informed(s.db, s.threads[t]))
    && (forall t, k :: t in s.threads && HasTaken(s.threads[t], k) ==> k in s.locks && s.locks[k] == t)
    && (forall k :: k in s.locks ==> s.locks[k] in s.threads && HasTaken(s.threads[s.locks[k]], k))
  }

  ghost predicate SystemInv(s: System) {
    Inv(s.db) && ThreadsOk(s)
  }

  // ----- scripts -----

  /** Whatever an instruction finds out is protected by a lock taken no later than itself. */
  lemma GuardTaken(r: Request, l: Locals, i: nat)
    requires i < |Script(r)| && GuardOf(r, Script(r)[i], l).Some?
    ensures exists j :: 0 <= j <= i && KeyOf(r, Script(r)[j], l) == GuardOf(r, Script(r)[i], l)
  {
    assert KeyOf(r, Script(r)[i], l) == KeyOf(r, Script(r)[i], l);
    match r
    case Place(_) =>
      assert KeyOf(r, Script(r)[0], l) == Some(DeviceKey(DeviceOf(r, l)));
      assert Script(r)[2] == LockRack;
    case Remove(_) =>
      assert KeyOf(r, Script(r)[0], l) == Some(DeviceKey(DeviceOf(r, l)));
    case DeleteRack(_, _) =>
      assert Script(r)[0] == LockRack;
    case DeletePdu(_, _) =>
      assert Script(r)[0] == LockPdu;
    case ForceArchive(_, _, _, _) =>
      assert Script(r)[0] == LockPdu;
    case UpdateSocket(_, _) =>
      assert Script(r)[1] == LockPdu;
    case DeleteSocket(_, _) =>
      assert Script(r)[1] == LockPdu;
    case Connect(_, _, _, _) =>
      assert KeyOf(r, Script(r)[1], l) == Some(DeviceKey(DeviceOf(r, l)));
      assert Script(r)[2] == LockPdu;
    case Disconnect(_, _) =>
      assert Script(r)[2] == LockPdu;
    case Approve(_, _, _, _, _) =>
      assert KeyOf(r, Script(r)[2], l) == Some(DeviceKey(DeviceOf(r, l)));
      assert Script(r)[4] == LockRack;
    case _ =>
  }

  lemma FetchEstablishes(db: Db, r: Request, i: Instr, l: Locals)
    requires Execute(db, r, i, l).Some? && SeenVersion(db, r) && DevicesOk(db.devices)
    requires i.FetchSocket? || i.FetchConnection? || i.FetchApproval? || i.FetchDevice? || i.FetchRack? || i.FetchPdu?
    ensures Known(db, r, i, Execute(db, r, i, l).value)
    ensures KeyOf(r, i, Execute(db, r, i, l).value) == KeyOf(r, i, l)
  {
    hide DeviceFits, RackFits, PositionFits, Conflict, Powered, SocketInUse, SitsAt, ImpactFits, HasPositions, HasPdus;
  }

  lemma LockEstablishes(db: Db, r: Request, i: Instr, l: Locals)
    requires Execute(db, r, i, l).Some? && (i.LockDevice? || i.LockRack? || i.LockPdu? || i.LockSocket?)
    ensures Known(db, r, i, Execute(db, r, i, l).value)
    ensures KeyOf(r, i, Execute(db, r, i, l).value) == KeyOf(r, i, l)
  {
    hide PositionFits, Conflict, Powered, SocketInUse, SitsAt, ImpactFits, HasPositions, HasPdus, RoleTaken;
    hide CheckLifecycle, CheckRack, CheckDecision, NeedsPowerCheck, Impact;
  }

  lemma ClaimEstablishes(db: Db, r: Request, i: Instr, l: Locals)
    requires Execute(db, r, i, l).Some? && (i.ClaimApproval? || i.CasDevice? || i.CasRack? || i.CasPdu?)
    ensures Known(db, r, i, Execute(db, r, i, l).value)
    ensures KeyOf(r, i, Execute(db, r, i, l).value) == KeyOf(r, i, l)
  {
    hide DeviceFits, RackFits, PositionFits, Conflict, Powered, SocketInUse, SitsAt, ImpactFits, HasPositions, HasPdus;
  }

  lemma CountEstablishes(db: Db, r: Request, i: Instr, l: Locals)
    requires Execute(db, r, i, l).Some?
    requires i.CountDeviceConnections? || i.CountSocketConnections? || i.CountPduConnections? || i.CountRackPositions?
             || i.CountRackPdus? || i.ReadOccupancies? || i.ReadRole?
    ensures Known(db, r, i, Execute(db, r, i, l).value)
    ensures KeyOf(r, i, Execute(db, r, i, l).value) == KeyOf(r, i, l)
  {
    hide DeviceFits, RackFits, PositionFits, Conflict, Powered, SocketInUse, SitsAt, Impact, HasPositions, HasPdus;
    hide RoleTaken, NeedsPowerCheck;
  }

  lemma PositionEstablishes(db: Db, r: Request, l: Locals)
    requires Execute(db, r, ReadPosition, l).Some? && l.device.Some? && DeviceOf(r, l) in db.devices
    requires l.device.value.version <= db.devices[DeviceOf(r, l)].version
    ensures Known(db, r, ReadPosition, Execute(db, r, ReadPosition, l).value)
    ensures KeyOf(r, ReadPosition, Execute(db, r, ReadPosition, l).value) == KeyOf(r, ReadPosition, l)
  {
    hide DeviceFits, RackFits;
    ActiveSitsAt(db.positions, DeviceOf(r, l));
  }

  /** An instruction that succeeds establishes what it is meant to find out. */
  lemma ExecuteEstablishes(db: Db, r: Request, i: Instr, l: Locals)
    requires Execute(db, r, i, l).Some? && SeenVersion(db, r) && DevicesOk(db.devices)
    requires i.ReadPosition? ==> l.device.Some? && DeviceOf(r, l) in db.devices
                                 && l.device.value.version <= db.devices[DeviceOf(r, l)].version
    ensures Known(db, r, i, Execute(db, r, i, l).value)
    ensures KeyOf(r, i, Execute(db, r, i, l).value) == KeyOf(r, i, l)
  {
    if i.FetchSocket? || i.FetchConnection? || i.FetchApproval? || i.FetchDevice? || i.FetchRack? || i.FetchPdu? {
      hide Known, Execute, KeyOf;
      FetchEstablishes(db, r, i, l);
    } else if i.LockDevice? || i.LockRack? || i.LockPdu? || i.LockSocket? {
      hide Known, Execute, KeyOf;
      LockEstablishes(db, r, i, l);
    } else if i.ClaimApproval? || i.CasDevice? || i.CasRack? || i.CasPdu? {
      hide Known, Execute, KeyOf;
      ClaimEstablishes(db, r, i, l);
    } else if i.ReadPosition? {
      hide Known, Execute, KeyOf;
      PositionEstablishes(db, r, l);
    } else if i.Commit? {
    } else {
      hide Known, Execute, KeyOf;
      CountEstablishes(db, r, i, l);
    }
  }

  /** The part of the locals that instruction `i` fills in. */
  predicate SameBut(i: Instr, l: Locals, l': Locals) {
    match i
    case FetchSocket => l' == l.(socket := l'.socket)
    case LockSocket =>
      l' == l.(socket := l'.socket)
      && (l.socket.Some? ==> l'.socket.Some? && l'.socket.value.pdu == l.socket.value.pdu)
    case FetchConnection => l' == l.(connection := l'.connection)
    case FetchApproval => l' == l.(record := l'.record)
    case FetchDevice => l' == l.(device := l'.device)
    case LockDevice => l' == l.(device := l'.device)
    case LockRack => l' == l.(rack := l'.rack)
    case LockPdu => l' == l.(pdu := l'.pdu)
    case FetchPdu => l' == l.(pdu := l'.pdu)
    case ReadPosition => l' == l.(at := l'.at)
    case _ => l' == l
  }

  /** What `earlier` found out does not depend on what `later` reads. */
  predicate Independent(earlier: Instr, later: Instr) {
    match later
    case FetchSocket => earlier.FetchConnection?
    case LockSocket => earlier.FetchSocket? || earlier.FetchConnection? || earlier.LockDevice? || earlier.LockPdu?
    case FetchConnection => false
    case FetchApproval => false
    case FetchPdu => false
    case FetchDevice => false
    case LockDevice => earlier.FetchSocket? || earlier.FetchApproval? || earlier.ClaimApproval?
    case LockRack =>
      earlier.FetchApproval? || earlier.ClaimApproval? || earlier.LockDevice? || earlier.CountDeviceConnections?
    case LockPdu => earlier.FetchSocket? || earlier.FetchConnection? || earlier.LockDevice?
    case ReadPosition =>
      || earlier.FetchApproval? || earlier.ClaimApproval? || earlier.FetchDevice? || earlier.FetchSocket?
      || earlier.LockDevice? || earlier.CountDeviceConnections? || earlier.LockRack? || earlier.ReadOccupancies?
      || earlier.LockPdu? || earlier.LockSocket?
    case _ => true
  }

  lemma ScriptIndependent(r: Request, j: nat, pc: nat)
    requires j < pc < |Script(r)|
    ensures Independent(Script(r)[j], Script(r)[pc])
  {
  }

  lemma SameRows(r: Request, l: Locals, l': Locals)
    requires l' == l.(rack := l'.rack, pdu := l'.pdu, at := l'.at)
    ensures PlacementOf(r, l') == PlacementOf(r, l)
    ensures DeviceOf(r, l') == DeviceOf(r, l) && RackOf(r, l') == RackOf(r, l)
    ensures SocketOf(r, l') == SocketOf(r, l) && PduOf(r, l') == PduOf(r, l) && EndOf(r, l') == EndOf(r, l)
  {
  }

  lemma Undisturbed(db: Db, r: Request, earlier: Instr, later: Instr, l: Locals, l': Locals)
    requires Known(db, r, earlier, l) && Independent(earlier, later) && SameBut(later, l, l')
    ensures Known(db, r, earlier, l') && KeyOf(r, earlier, l') == KeyOf(r, earlier, l)
  {
    hide Known;
    if later.ReadPosition? {
      if earlier.LockDevice? || earlier.CountDeviceConnections? || earlier.LockRack? || earlier.ReadOccupancies? {
        PlacementUndisturbed(db, r, earlier, l, l');
      } else {
        LocationUndisturbed(db, r, earlier, l, l');
      }
    } else if later.FetchSocket? {
      UndisturbedByFetch(db, r, earlier, l, l');
    } else if later.LockSocket? {
      UndisturbedBySocket(db, r, earlier, l, l');
    } else if later.LockDevice? {
      UndisturbedByDevice(db, r, earlier, later, l, l');
    } else if later.LockRack? {
      UndisturbedByRack(db, r, earlier, l, l');
    } else if later.LockPdu? {
      UndisturbedByPdu(db, r, earlier, l, l');
    }
  }

  lemma UndisturbedByFetch(db: Db, r: Request, earlier: Instr, l: Locals, l': Locals)
    requires earlier.FetchConnection? && Known(db, r, earlier, l) && SameBut(FetchSocket, l, l')
    ensures Known(db, r, earlier, l') && KeyOf(r, earlier, l') == KeyOf(r, earlier, l)
  {
  }

  lemma UndisturbedBySocket(db: Db, r: Request, earlier: Instr, l: Locals, l': Locals)
    requires Known(db, r, earlier, l) && Independent(earlier, LockSocket) && SameBut(LockSocket, l, l')
    ensures Known(db, r, earlier, l') && KeyOf(r, earlier, l') == KeyOf(r, earlier, l)
  {
    hide Known;
    if earlier.LockDevice? {
      DeviceUndisturbed(db, r, l, l');
    } else {
      RowUndisturbed(db, r, earlier, l, l');
    }
  }

  /** What a transaction knows of its locked device does not depend on the other rows it has read. */
  lemma DeviceUndisturbed(db: Db, r: Request, l: Locals, l': Locals)
    requires Known(db, r, LockDevice, l)
    requires l' == l.(socket := l'.socket, rack := l'.rack, pdu := l'.pdu, at := l'.at)
    ensures Known(db, r, LockDevice, l') && KeyOf(r, LockDevice, l') == KeyOf(r, LockDevice, l)
  {
    FitsAnyway(db, r, l, l');
    hide DeviceFits;
  }

  lemma RowUndisturbed(db: Db, r: Request, earlier: Instr, l: Locals, l': Locals)
    requires earlier.FetchSocket? || earlier.FetchConnection? || earlier.LockPdu?
    requires Known(db, r, earlier, l) && SameBut(LockSocket, l, l')
    ensures Known(db, r, earlier, l') && KeyOf(r, earlier, l') == KeyOf(r, earlier, l)
  {
    hide DeviceFits, RackFits, PositionFits, Conflict, Powered, SocketInUse, SitsAt, ImpactFits, HasPositions, HasPdus;
  }

  lemma FitsAnyway(db: Db, r: Request, l: Locals, l': Locals)
    requires l' == l.(socket := l'.socket, rack := l'.rack, pdu := l'.pdu, at := l'.at)
    ensures DeviceOf(r, l') == DeviceOf(r, l) && PlacementOf(r, l') == PlacementOf(r, l)
    ensures DeviceOf(r, l) in db.devices ==>
              DeviceFits(r, l', db.devices[DeviceOf(r, l)]) == DeviceFits(r, l, db.devices[DeviceOf(r, l)])
  {
  }

  lemma UndisturbedByDevice(db: Db, r: Request, earlier: Instr, later: Instr, l: Locals, l': Locals)
    requires later.LockDevice?
    requires Known(db, r, earlier, l) && Independent(earlier, later) && SameBut(later, l, l')
    ensures Known(db, r, earlier, l') && KeyOf(r, earlier, l') == KeyOf(r, earlier, l)
  {
    hide DeviceFits, RackFits, PositionFits, Conflict, Powered, SocketInUse, SitsAt, ImpactFits, HasPositions, HasPdus;
  }

  lemma UndisturbedByRack(db: Db, r: Request, earlier: Instr, l: Locals, l': Locals)
    requires Known(db, r, earlier, l) && Independent(earlier, LockRack) && SameBut(LockRack, l, l')
    ensures Known(db, r, earlier, l') && KeyOf(r, earlier, l') == KeyOf(r, earlier, l)
  {
    hide Known;
    if earlier.LockDevice? {
      DeviceUndisturbed(db, r, l, l');
    } else {
      ChecksUndisturbed(db, r, earlier, l, l');
    }
  }

  lemma ChecksUndisturbed(db: Db, r: Request, earlier: Instr, l: Locals, l': Locals)
    requires earlier.FetchApproval? || earlier.ClaimApproval? || earlier.CountDeviceConnections?
    requires Known(db, r, earlier, l) && l' == l.(rack := l'.rack)
    ensures Known(db, r, earlier, l') && KeyOf(r, earlier, l') == KeyOf(r, earlier, l)
  {
    FitsAnyway(db, r, l, l');
    hide DeviceFits, RackFits, PositionFits, Conflict, Powered, SocketInUse, SitsAt, ImpactFits, HasPositions, HasPdus;
    hide DeviceOf, PlacementOf;
  }

  lemma UndisturbedByPdu(db: Db, r: Request, earlier: Instr, l: Locals, l': Locals)
    requires Known(db, r, earlier, l) && Independent(earlier, LockPdu) && SameBut(LockPdu, l, l')
    ensures Known(db, r, earlier, l') && KeyOf(r, earlier, l') == KeyOf(r, earlier, l)
  {
    hide Known;
    if earlier.LockDevice? {
      DeviceUndisturbed(db, r, l, l');
    } else {
      FetchesUndisturbed(db, r, earlier, l, l');
    }
  }

  lemma FetchesUndisturbed(db: Db, r: Request, earlier: Instr, l: Locals, l': Locals)
    requires earlier.FetchSocket? || earlier.FetchConnection?
    requires Known(db, r, earlier, l) && l' == l.(pdu := l'.pdu)
    ensures Known(db, r, earlier, l') && KeyOf(r, earlier, l') == KeyOf(r, earlier, l)
  {
    hide DeviceFits, RackFits, PositionFits, Conflict, Powered, SocketInUse, SitsAt, ImpactFits, HasPositions, HasPdus;
  }

  lemma PlacementUndisturbed(db: Db, r: Request, earlier: Instr, l: Locals, l': Locals)
    requires earlier.LockDevice? || earlier.CountDeviceConnections? || earlier.LockRack? || earlier.ReadOccupancies?
    requires Known(db, r, earlier, l) && l' == l.(at := l'.at)
    ensures Known(db, r, earlier, l') && KeyOf(r, earlier, l') == KeyOf(r, earlier, l)
  {
    SameRows(r, l, l');
  }

  lemma LocationUndisturbed(db: Db, r: Request, earlier: Instr, l: Locals, l': Locals)
    requires earlier.FetchApproval? || earlier.ClaimApproval? || earlier.FetchDevice? || earlier.FetchSocket?
             || earlier.LockPdu? || earlier.LockSocket?
    requires Known(db, r, earlier, l) && l' == l.(at := l'.at)
    ensures Known(db, r, earlier, l') && KeyOf(r, earlier, l') == KeyOf(r, earlier, l)
  {
    SameRows(r, l, l');
  }

  /** An instruction does not disturb what earlier instructions of the script found out. */
  lemma EarlierStays(db: Db, r: Request, l: Locals, l': Locals, j: nat, pc: nat)
    requires j < pc < |Script(r)|
    requires Known(db, r, Script(r)[j], l) && SameBut(Script(r)[pc], l, l')
    ensures Known(db, r, Script(r)[j], l') && KeyOf(r, Script(r)[j], l') == KeyOf(r, Script(r)[j], l)
  {
    hide Known, KeyOf, Independent, SameBut, Script;
    ScriptIndependent(r, j, pc);
    Undisturbed(db, r, Script(r)[j], Script(r)[pc], l, l');
  }

  lemma ExecuteChanges(db: Db, r: Request, i: Instr, l: Locals)
    requires Execute(db, r, i, l).Some?
    requires i.LockSocket? ==> Known(db, r, FetchSocket, l)
    ensures SameBut(i, l, Execute(db, r, i, l).value)
  {
  }

  // ----- commits are serial -----

  /** The thread has everything its last step relies on. */
  ghost predicate Ready(db: Db, r: Request, l: Locals) {
    && SeenVersion(db, r)
    && forall i :: 0 <= i < |Script(r)| - 1 ==> Known(db, r, Script(r)[i], l)
  }

  lemma PlacementIsSerial(db: Db, q: Placement, r: Request, l: Locals)
    requires OnePosition(db.positions)
    requires Known(db, r, CountDeviceConnections, l) && Known(db, r, LockRack, l)
    requires Known(db, r, ReadOccupancies, l) && Known(db, r, ReadPosition, l)
    requires q == PlacementOf(r, l) && (r.Place? || r.Approve?)
    requires LiveDevice(db.devices, q.device) && l.device == Some(db.devices[q.device])
    requires CheckLifecycle(db.devices[q.device], q.operation).None?
    requires PublishPlacement(db, q, l).Done?
    ensures PublishPlacement(db, q, l) == PlaceDevice(db, q)
  {
    hide PlaceEffect;
    SitsAtActive(db.positions, q.device, l.at.value);
  }

  lemma PlaceIsSerial(db: Db, r: Request, l: Locals)
    requires OnePosition(db.positions) && Ready(db, r, l) && Publish(db, r, l).Done?
    requires r.Place?
    ensures Publish(db, r, l) == Apply(db, r)
  {
    assert Known(db, r, Script(r)[0], l) && Known(db, r, Script(r)[1], l) && Known(db, r, Script(r)[2], l);
    assert Known(db, r, Script(r)[3], l) && Known(db, r, Script(r)[4], l);
    hide PublishPlacement, PlaceDevice;
    PlacementIsSerial(db, r.placement, r, l);
  }

  lemma RemoveIsSerial(db: Db, r: Request, l: Locals)
    requires OnePosition(db.positions) && Ready(db, r, l) && Publish(db, r, l).Done?
    requires r.Remove?
    ensures Publish(db, r, l) == Apply(db, r)
  {
    hide RemoveEffect;
    assert Known(db, r, Script(r)[0], l) && Known(db, r, Script(r)[1], l) && Known(db, r, Script(r)[2], l);
    SitsAtActive(db.positions, r.id, l.at.value);
  }

  /** Deciding a record changes nothing of what the placement has read. */
  lemma DecisionKeepsKnown(db: Db, r: Request, i: Instr, l: Locals, a: Id, status: ApprovalStatus)
    requires a in db.approvals && Known(db, r, i, l)
    requires i.CountDeviceConnections? || i.LockRack? || i.ReadOccupancies? || i.ReadPosition?
    ensures Known(DecideEffect(db, a, status), r, i, l)
  {
  }

  lemma ApproveIsSerial(db: Db, r: Request, l: Locals)
    requires OnePosition(db.positions) && Ready(db, r, l) && Publish(db, r, l).Done?
    requires r.Approve?
    ensures Publish(db, r, l) == Apply(db, r)
  {
    hide PublishPlacement, PlaceDevice, SitsAt, Conflict, Powered, RackFits, PositionFits;
    assert Known(db, r, Script(r)[0], l) && Known(db, r, Script(r)[1], l) && Known(db, r, Script(r)[2], l);
    assert Known(db, r, Script(r)[3], l) && Known(db, r, Script(r)[4], l);
    assert Known(db, r, Script(r)[5], l) && Known(db, r, Script(r)[6], l);
    var q := PlacementOf(r, l);
    assert q == ApprovedPlacement(db.approvals[r.id], r.position, r.occupancy);
    DecisionKeepsKnown(db, r, CountDeviceConnections, l, r.id, Approved);
    DecisionKeepsKnown(db, r, LockRack, l, r.id, Approved);
    DecisionKeepsKnown(db, r, ReadOccupancies, l, r.id, Approved);
    DecisionKeepsKnown(db, r, ReadPosition, l, r.id, Approved);
    PlacementIsSerial(DecideEffect(db, r.id, Approved), q, r, l);
  }

  lemma DeviceIsSerial(db: Db, r: Request, l: Locals)
    requires OnePosition(db.positions) && Ready(db, r, l) && Publish(db, r, l).Done?
    requires r.UpdateDevice? || r.DeleteDevice?
    ensures Publish(db, r, l) == Apply(db, r)
  {
    assert Known(db, r, Script(r)[0], l) && Known(db, r, Script(r)[1], l) && Known(db, r, Script(r)[2], l);
    if ReadsPosition(r) {
      SitsAtActive(db.positions, r.id, l.at.value);
    }
  }

  lemma RackEditIsSerial(db: Db, r: Request, l: Locals)
    requires Ready(db, r, l) && Publish(db, r, l).Done? && r.UpdateRack?
    ensures Publish(db, r, l) == Apply(db, r)
  {
    hide SetRack;
    assert Known(db, r, Script(r)[1], l);
  }

  lemma RackDeletionIsSerial(db: Db, r: Request, l: Locals)
    requires Ready(db, r, l) && Publish(db, r, l).Done? && r.DeleteRack?
    ensures Publish(db, r, l) == Apply(db, r)
  {
    hide DropRack, HasPositions, HasPdus;
    assert Known(db, r, Script(r)[0], l) && Known(db, r, Script(r)[1], l) && Known(db, r, Script(r)[2], l);
  }

  lemma NewPduIsSerial(db: Db, r: Request, l: Locals)
    requires Ready(db, r, l) && Publish(db, r, l).Done? && r.CreatePdu?
    ensures Publish(db, r, l) == Apply(db, r)
  {
    hide RackFits;
    assert Known(db, r, Script(r)[0], l);
  }

  lemma PduIsSerial(db: Db, r: Request, l: Locals)
    requires Ready(db, r, l) && Publish(db, r, l).Done?
    requires r.UpdatePdu? || r.DeletePdu? || r.ForceArchive? || r.CreateSocket?
    ensures Publish(db, r, l) == Apply(db, r)
  {
    hide RetirePdu, ArchiveEffect, Impact;
    assert Known(db, r, Script(r)[0], l);
    if !r.CreateSocket? {
      assert Known(db, r, Script(r)[1], l);
    }
  }

  lemma SocketIsSerial(db: Db, r: Request, l: Locals)
    requires Ready(db, r, l) && Publish(db, r, l).Done?
    requires r.UpdateSocket? || r.DeleteSocket?
    ensures Publish(db, r, l) == Apply(db, r)
  {
    hide SocketInUse, NumberTaken, DropSocket;
    assert Known(db, r, Script(r)[0], l) && Known(db, r, Script(r)[1], l) && Known(db, r, Script(r)[2], l);
    if r.DeleteSocket? {
      assert Known(db, r, Script(r)[3], l);
    }
  }

  /** What a connecting transaction knows at its commit, instruction by instruction. */
  lemma ConnectKnows(db: Db, r: Request, l: Locals)
    requires Ready(db, r, l) && r.Connect?
    ensures LiveDevice(db.devices, r.device)
    ensures l.socket.Some? && LiveSocket(db.sockets, r.socket) && l.socket.value == db.sockets[r.socket]
    ensures l.socket.value.status != SocketConnected
    ensures LivePdu(db.pdus, l.socket.value.pdu) && l.pdu == Some(db.pdus[l.socket.value.pdu])
    ensures Known(db, r, LockDevice, l) && Known(db, r, ReadPosition, l)
    ensures !ResolveRole(r.role).UnknownRole? && !RoleTaken(db.connections, r.device, ResolveRole(r.role))
  {
    hide SitsAt, RoleTaken, PositionFits;
    assert Known(db, r, Script(r)[1], l) && Known(db, r, Script(r)[2], l) && Known(db, r, Script(r)[3], l);
    assert Known(db, r, Script(r)[4], l) && Known(db, r, Script(r)[5], l);
  }

  lemma ConnectedPlace(db: Db, r: Request, l: Locals)
    requires OnePosition(db.positions) && r.Connect? && l.pdu.Some?
    requires Known(db, r, LockDevice, l) && Known(db, r, ReadPosition, l)
    ensures ActiveAt(db.positions, r.device).Some?
    ensures ActiveAt(db.positions, r.device).value.rack == l.pdu.value.rack
  {
    SitsAtActive(db.positions, r.device, l.at.value);
  }

  lemma ConnectIsSerial(db: Db, r: Request, l: Locals)
    requires OnePosition(db.positions) && Ready(db, r, l) && Publish(db, r, l).Done?
    requires r.Connect?
    ensures Publish(db, r, l) == Apply(db, r)
  {
    ConnectKnows(db, r, l);
    ConnectedPlace(db, r, l);
    hide Ready, Known, ConnectEffect, ActiveAt, OnePosition, RoleTaken;
  }

  lemma DisconnectIsSerial(db: Db, r: Request, l: Locals)
    requires Ready(db, r, l) && Publish(db, r, l).Done?
    requires r.Disconnect?
    ensures Publish(db, r, l) == Apply(db, r)
  {
    hide DisconnectEffect;
    assert Known(db, r, Script(r)[0], l) && Known(db, r, Script(r)[1], l);
    assert Known(db, r, Script(r)[2], l) && Known(db, r, Script(r)[3], l);
  }

  lemma RejectIsSerial(db: Db, r: Request, l: Locals)
    requires Ready(db, r, l) && Publish(db, r, l).Done?
    requires r.Reject?
    ensures Publish(db, r, l) == Apply(db, r)
  {
    assert Known(db, r, Script(r)[0], l) && Known(db, r, Script(r)[1], l);
  }

  /** What a transaction publishes is what it would have done alone on the same tables. */
  lemma CommitIsSerial(db: Db, r: Request, l: Locals)
    requires OnePosition(db.positions) && Ready(db, r, l) && Publish(db, r, l).Done? && !r.Submit?
    ensures Publish(db, r, l) == Apply(db, r)
  {
    hide Ready, Publish, Apply;
    match r
    case CreateDevice(_, _, _, _) => CreateIsSerial(db, r, l);
    case CreateRack(_, _, _, _, _) => CreateIsSerial(db, r, l);
    case UpdateDevice(_, _, _) => DeviceIsSerial(db, r, l);
    case DeleteDevice(_, _) => DeviceIsSerial(db, r, l);
    case Place(_) => PlaceIsSerial(db, r, l);
    case Remove(_) => RemoveIsSerial(db, r, l);
    case UpdateRack(_, _, _, _) => RackEditIsSerial(db, r, l);
    case DeleteRack(_, _) => RackDeletionIsSerial(db, r, l);
    case CreatePdu(_, _) => NewPduIsSerial(db, r, l);
    case UpdatePdu(_) => PduIsSerial(db, r, l);
    case DeletePdu(_, _) => PduIsSerial(db, r, l);
    case ForceArchive(_, _, _, _) => PduIsSerial(db, r, l);
    case CreateSocket(_, _, _) => PduIsSerial(db, r, l);
    case UpdateSocket(_, _) => SocketIsSerial(db, r, l);
    case DeleteSocket(_, _) => SocketIsSerial(db, r, l);
    case Connect(_, _, _, _) => ConnectIsSerial(db, r, l);
    case Disconnect(_, _) => DisconnectIsSerial(db, r, l);
    case Approve(_, _, _, _, _) => ApproveIsSerial(db, r, l);
    case Reject(_, _, _) => RejectIsSerial(db, r, l);
  }

  lemma CreateIsSerial(db: Db, r: Request, l: Locals)
    requires r.CreateDevice? || r.CreateRack?
    ensures Publish(db, r, l) == Apply(db, r)
  {
  }

  /** A submitted record may be made of two reads with a commit between them; it is admissible all the same. */
  lemma SubmitIsAdmissible(db: Db, r: Request, l: Locals)
    requires Ready(db, r, l) && Publish(db, r, l).Done? && r.Submit?
    ensures var a := NewApproval(r.placement, r.placement.DesiredRack().value, l.device.value, l.at.value);
            && r.id !in db.approvals && AsksFor(a, r.placement) && Admissible(db.devices, db.positions, a)
            && Publish(db, r, l) == Done(db.(approvals := db.approvals[r.id := a]))
  {
    assert Known(db, r, Script(r)[0], l) && Known(db, r, Script(r)[1], l);
  }

  // ----- every step keeps the system invariant -----

  lemma SocketsInOrder(db: Db, th: Thread)
    requires Informed(db, th) && NextInstr(th).LockSocket?
    ensures Known(db, th.request, FetchSocket, th.locals)
  {
    hide Known;
    assert Script(th.request)[if th.request.Disconnect? then 1 else 0] == FetchSocket;
  }

  /** A script reads a position only after the device, and locks a socket only after locating it. */
  lemma ReadsInOrder(db: Db, th: Thread)
    requires Informed(db, th)
    ensures NextInstr(th).LockSocket? ==> Known(db, th.request, FetchSocket, th.locals)
    ensures NextInstr(th).ReadPosition? ==>
              && th.locals.device.Some? && DeviceOf(th.request, th.locals) in db.devices
              && th.locals.device.value.version <= db.devices[DeviceOf(th.request, th.locals)].version
  {
    hide Known, Informed;
    if NextInstr(th).LockSocket? {
      SocketsInOrder(db, th);
    }
    if NextInstr(th).ReadPosition? {
      var i := DeviceRead(db, th);
      ReadDevice(db, th.request, i, th.locals);
    }
  }

  lemma DeviceRead(db: Db, th: Thread) returns (i: Instr)
    requires Informed(db, th) && NextInstr(th).ReadPosition?
    ensures (i.FetchDevice? || i.LockDevice?) && Known(db, th.request, i, th.locals)
  {
    hide Known;
    i := Script(th.request)[if th.request.Connect? then 1 else if th.request.Approve? then 2 else 0];
  }

  lemma ReadDevice(db: Db, r: Request, i: Instr, l: Locals)
    requires (i.FetchDevice? || i.LockDevice?) && Known(db, r, i, l)
    ensures l.device.Some? && DeviceOf(r, l) in db.devices
    ensures l.device.value.version <= db.devices[DeviceOf(r, l)].version
  {
    hide DeviceFits;
  }

  lemma AdvanceInforms(db: Db, th: Thread)
    requires DevicesOk(db.devices) && Informed(db, th) && NextInstr(th) != Commit
    requires Execute(db, th.request, NextInstr(th), th.locals).Some?
    ensures var l := Execute(db, th.request, NextInstr(th), th.locals).value;
            && Informed(db, Thread(th.request, th.pc + 1, l))
            && (forall i :: 0 <= i <= th.pc ==>
                  KeyOf(th.request, Script(th.request)[i], l) == KeyOf(th.request, Script(th.request)[i], th.locals))
  {
    hide Known, KeyOf, Script, SameBut, Execute;
    var r, i, l := th.request, NextInstr(th), th.locals;
    var l' := Execute(db, r, i, l).value;
    ReadsInOrder(db, th);
    ExecuteChanges(db, r, i, l);
    ExecuteEstablishes(db, r, i, l);
    forall j | 0 <= j < th.pc
      ensures Known(db, r, Script(r)[j], l') && KeyOf(r, Script(r)[j], l') == KeyOf(r, Script(r)[j], l)
    {
      EarlierStays(db, r, l, l', j, th.pc);
    }
  }

  lemma AdvanceTakes(th: Thread, l: Locals, k: Key)
    requires th.pc < |Script(th.request)| - 1
    requires forall i :: 0 <= i <= th.pc ==>
                         KeyOf(th.request, Script(th.request)[i], l) ==
                         KeyOf(th.request, Script(th.request)[i], th.locals)
    ensures HasTaken(Thread(th.request, th.pc + 1, l), k) <==> HasTaken(th, k) || Wants(th) == Some(k)
  {
    hide KeyOf, Script;
    if HasTaken(th, k) {
      var i :| 0 <= i < th.pc && KeyOf(th.request, Script(th.request)[i], th.locals) == Some(k);
      assert KeyOf(th.request, Script(th.request)[i], l) == Some(k);
    }
    if Wants(th) == Some(k) {
      assert KeyOf(th.request, Script(th.request)[th.pc], l) == Some(k);
    }
  }

  lemma AdvanceKeeps(s: System, t: Tid, s': System)
    requires SystemInv(s) && Step(s, Advance(t), s')
    ensures SystemInv(s')
  {
    hide Execute, LayoutOk, PowerOk, Known, KeyOf;
    assert DevicesOk(s.db.devices);
    hide Inv;
    var th := s.threads[t];
    AdvanceInforms(s.db, th);
    forall k
      ensures HasTaken(s'.threads[t], k) <==> HasTaken(th, k) || Wants(th) == Some(k)
    {
      AdvanceTakes(th, s'.threads[t].locals, k);
    }
    hide HasTaken, Wants, Script, Informed;
    AdvanceKeepsThreads(s, t, s');
  }

  lemma AdvanceKeepsThreads(s: System, t: Tid, s': System)
    requires ThreadsOk(s) && t in s.threads && s'.threads.Keys == s.threads.Keys
    requires s'.db == s.db && s'.threads == s.threads[t := s'.threads[t]] && Informed(s.db, s'.threads[t])
    requires s'.locks == if Wants(s.threads[t]).Some? then s.locks[Wants(s.threads[t]).value := t] else s.locks
    requires !Blocked(s, t)
    requires forall k :: HasTaken(s'.threads[t], k) <==> HasTaken(s.threads[t], k) || Wants(s.threads[t]) == Some(k)
    ensures ThreadsOk(s')
  {
    hide HasTaken, Wants, Informed;
  }

  lemma BeginKeeps(s: System, t: Tid, r: Request, s': System)
    requires SystemInv(s) && Step(s, Begin(t, r), s')
    ensures SystemInv(s')
  {
    hide Inv, KeyOf, Known, SeenVersion, Script;
    NothingTaken(s'.threads[t]);
    hide HasTaken;
  }

  lemma NothingTaken(th: Thread)
    requires th.pc == 0
    ensures forall k :: !HasTaken(th, k)
  {
  }

  lemma GiveUpKeeps(s: System, t: Tid, s': System)
    requires SystemInv(s) && Step(s, GiveUp(t), s')
    ensures SystemInv(s')
  {
    hide Inv, HasTaken, Informed, Execute, Publish, KeyOf;
  }

  lemma SocketFootprintTaken(db: Db, r: Request, l: Locals, k: Key)
    requires Ready(db, r, l) && k in Footprint(db, r)
    requires r.UpdateSocket? || r.DeleteSocket? || r.Connect? || r.Disconnect?
    ensures exists i :: 0 <= i < |Script(r)| - 1 && KeyOf(r, Script(r)[i], l) == Some(k)
  {
    SocketKnows(db, r, l);
    hide Ready, Known;
    var locked := if r.Connect? || r.Disconnect? then 3 else 2;
    var i := if k.DeviceKey? then 1 else if k.PduKey? then locked - 1 else locked;
    assert KeyOf(r, Script(r)[i], l) == Some(k);
  }

  /** The socket that a transaction has locked, in the PDU that it has locked. */
  lemma SocketKnows(db: Db, r: Request, l: Locals)
    requires Ready(db, r, l) && (r.UpdateSocket? || r.DeleteSocket? || r.Connect? || r.Disconnect?)
    ensures SocketOf(r, l).Some? && SocketOf(r, l).value in db.sockets
    ensures l.socket == Some(db.sockets[SocketOf(r, l).value])
    ensures r.Disconnect? ==> r.id in db.connections && SocketOf(r, l) == Some(db.connections[r.id].socket)
  {
    hide DeviceFits, PositionFits, SitsAt, RoleTaken, SocketInUse;
    assert Known(db, r, Script(r)[if r.Connect? || r.Disconnect? then 3 else 2], l);
    assert Known(db, r, Script(r)[0], l);
  }

  lemma ApprovalFootprintTaken(db: Db, r: Request, l: Locals, k: Key)
    requires Ready(db, r, l) && k in Footprint(db, r)
    requires r.Approve? || r.Reject?
    ensures exists i :: 0 <= i < |Script(r)| - 1 && KeyOf(r, Script(r)[i], l) == Some(k)
  {
    hide DeviceFits, RackFits, PositionFits, SitsAt, Conflict, Powered;
    assert Known(db, r, Script(r)[0], l) && Known(db, r, Script(r)[1], l);
    if r.Approve? {
      assert Script(r)[2] == LockDevice && Script(r)[4] == LockRack;
    }
  }

  /** A transaction that commits holds the lock of every row it had to lock. */
  lemma FootprintTaken(db: Db, r: Request, l: Locals, k: Key)
    requires Ready(db, r, l) && k in Footprint(db, r)
    ensures exists i :: 0 <= i < |Script(r)| - 1 && KeyOf(r, Script(r)[i], l) == Some(k)
  {
    hide Known;
    if r.UpdateSocket? || r.DeleteSocket? || r.Connect? || r.Disconnect? {
      SocketFootprintTaken(db, r, l, k);
    } else if r.Approve? || r.Reject? {
      ApprovalFootprintTaken(db, r, l, k);
    } else {
      var i := if r.Place? && k.RackKey? then 2 else if r.UpdateDevice? || r.DeleteDevice? then 2
               else if r.UpdateRack? || r.UpdatePdu? then 1 else 0;
      assert KeyOf(r, Script(r)[i], l) == Some(k);
    }
  }

  /** The step that commits: a serial transaction, or the insertion of an admissible record of what was asked for. */
  ghost predicate Next(db: Db, r: Request, db': Db) {
    if r.Submit? then
      r.id !in db.approvals && r.id in db'.approvals
      && db' == db.(approvals := db.approvals[r.id := db'.approvals[r.id]])
      && db'.approvals[r.id].status == Pending && AsksFor(db'.approvals[r.id], r.placement)
      && Admissible(db.devices, db.positions, db'.approvals[r.id])
    else
      Apply(db, r) == Done(db')
  }

  lemma NextKeepsInv(db: Db, r: Request, db': Db)
    requires Inv(db) && Next(db, r, db')
    ensures Inv(db')
  {
    if r.Submit? {
      NewApprovalKeepsInv(db, r.id, db'.approvals[r.id]);
    } else {
      hide Apply, Inv;
      ApplyKeepsInv(db, r);
    }
  }

  lemma InsertionRespects(db: Db, id: Id, a: Approval)
    requires id !in db.approvals
    ensures Respects(db, db.(approvals := db.approvals[id := a]), {})
  {
    hide DevicesRespect, ConnectionsRespect, RacksRespect, PdusRespect;
    SameTablesRespect(db, db.(approvals := db.approvals[id := a]), {});
  }

  lemma NextRespects(db: Db, r: Request, db': Db)
    requires Inv(db) && Next(db, r, db')
    ensures Respects(db, db', Footprint(db, r))
  {
    hide Apply, Inv, Respects;
    if r.Submit? {
      InsertionRespects(db, r.id, db'.approvals[r.id]);
    } else {
      ApplyRespects(db, r);
    }
  }

  lemma PublishIsNext(db: Db, r: Request, l: Locals)
    requires Inv(db) && Ready(db, r, l) && Publish(db, r, l).Done?
    ensures Next(db, r, Publish(db, r, l).db)
  {
    if r.Submit? {
      SubmitIsAdmissible(db, r, l);
    } else {
      hide Publish, Apply, Ready;
      CommitIsSerial(db, r, l);
    }
  }

  /** Another thread's knowledge survives the commit. */
  lemma OthersStayInformed(s: System, t: Tid, u: Tid, db': Db)
    requires ThreadsOk(s) && t in s.threads && u in s.threads && t != u
    requires NextInstr(s.threads[t]) == Commit
    requires Respects(s.db, db', Footprint(s.db, s.threads[t].request))
    ensures Informed(db', s.threads[u])
  {
    hide Respects, Known, KeyOf, Footprint;
    var th := s.threads[u];
    var owned := Footprint(s.db, s.threads[t].request);
    SeenVersionStable(s.db, db', owned, th.request);
    forall i | 0 <= i < th.pc
      ensures Known(db', th.request, Script(th.request)[i], th.locals)
    {
      var guard := GuardOf(th.request, Script(th.request)[i], th.locals);
      if guard.Some? && guard.value in owned {
        GuardTaken(th.request, th.locals, i);
        assert HasTaken(th, guard.value);
        FinisherHolds(s, t, guard.value);
        assert false;
      }
      if Script(th.request)[i].CountSocketConnections? {
        CountsAfterFetch(s.db, th, i);
      }
      KnownStable(s.db, db', owned, th.request, Script(th.request)[i], th.locals);
    }
  }

  lemma CountsAfterFetch(db: Db, th: Thread, i: nat)
    requires Informed(db, th) && i < th.pc && Script(th.request)[i].CountSocketConnections?
    ensures Known(db, th.request, FetchSocket, th.locals)
  {
    assert Script(th.request)[0] == FetchSocket;
  }

  lemma SeenVersionStable(db: Db, db': Db, owned: set<Key>, r: Request)
    requires SeenVersion(db, r) && Respects(db, db', owned)
    ensures SeenVersion(db', r)
  {
  }

  lemma FinisherReady(s: System, t: Tid)
    requires t in s.threads && Informed(s.db, s.threads[t]) && NextInstr(s.threads[t]) == Commit
    ensures s.threads[t].pc == |Script(s.threads[t].request)| - 1
    ensures Ready(s.db, s.threads[t].request, s.threads[t].locals)
  {
  }

  lemma FinisherHolds(s: System, t: Tid, k: Key)
    requires ThreadsOk(s) && t in s.threads && NextInstr(s.threads[t]) == Commit
    requires k in Footprint(s.db, s.threads[t].request)
    ensures k in s.locks && s.locks[k] == t
  {
    hide Known, KeyOf, Footprint;
    FinisherReady(s, t);
    FootprintTaken(s.db, s.threads[t].request, s.threads[t].locals, k);
    assert HasTaken(s.threads[t], k);
  }

  lemma FinishKeeps(s: System, t: Tid, s': System)
    requires SystemInv(s) && Step(s, Finish(t), s')
    ensures SystemInv(s') && Next(s.db, s.threads[t].request, s'.db)
  {
    hide Inv, HasTaken, Informed, Publish, Next, Respects, Footprint;
    var th := s.threads[t];
    FinisherReady(s, t);
    PublishIsNext(s.db, th.request, th.locals);
    NextKeepsInv(s.db, th.request, s'.db);
    NextRespects(s.db, th.request, s'.db);
    forall u | u in s'.threads
      ensures Informed(s'.db, s'.threads[u])
    {
      OthersStayInformed(s, t, u, s'.db);
    }
  }
}
