// The scripts are complete: a transaction that nobody disturbs does whatever its request does alone, and gives up
// only if the request fails.

module Solo {
  import opened Wrappers
  import opened Inventory
  import opened Transactions
  import opened Interleaving
  import opened Outcomes

  /** What the first `n` instructions have read from tables that stay as they are. */
  ghost function Reads(db: Db, r: Request, n: nat): Option<Locals>
    requires n <= |Script(r)|
  {
    if n == 0 then Some(NOTHING_READ)
    else
      var before := Reads(db, r, n - 1);
      if before.None? then None else Execute(db, r, Script(r)[n - 1], before.value)
  }

  /** The tables after the transaction has run to its end, if it does. */
  ghost function Alone(db: Db, r: Request): Option<Db> {
    var seen := Reads(db, r, |Script(r)| - 1);
    if seen.Some? && Publish(db, r, seen.value).Done? then Some(Publish(db, r, seen.value).db) else None
  }

  ghost predicate Faithful(db: Db, r: Request) {
    Alone(db, r) == match Apply(db, r) case Done(after) => Some(after) case Fail(_) => None
  }

  lemma ReadsStep(db: Db, r: Request, n: nat)
    requires 0 < n <= |Script(r)|
    ensures Reads(db, r, 0) == Some(NOTHING_READ)
    ensures Reads(db, r, n) ==
            if Reads(db, r, n - 1).None? then None else Execute(db, r, Script(r)[n - 1], Reads(db, r, n - 1).value)
  {
  }

  /** A transaction that has given up reads no more. */
  lemma {:induction false} GivenUp(db: Db, r: Request, m: nat, n: nat)
    requires m <= n <= |Script(r)| && Reads(db, r, m).None?
    ensures Reads(db, r, n).None?
  {
    hide Execute, Script;
    if m < n {
      GivenUp(db, r, m, n - 1);
    }
  }

  lemma NoReads(db: Db, r: Request)
    requires r.CreateDevice? || r.CreateRack?
    ensures Faithful(db, r)
  {
  }

  lemma UpdateAlone(db: Db, d: Id, expected: nat, height: Option<int>)
    ensures Faithful(db, UpdateDevice(d, expected, height))
  {
    var r := UpdateDevice(d, expected, height);
    ReadsStep(db, r, 1);
    ReadsStep(db, r, 2);
    ReadsStep(db, r, 3);
    hide Reads, Active;
  }

  lemma DeleteAlone(db: Db, d: Id, expected: nat)
    ensures Faithful(db, DeleteDevice(d, expected))
  {
    var r := DeleteDevice(d, expected);
    ReadsStep(db, r, 1);
    ReadsStep(db, r, 2);
    ReadsStep(db, r, 3);
    hide Reads, Active;
  }

  /** What a placement gets to read, if its device, its rack and the U's let it. */
  ghost predicate Reading(db: Db, q: Placement, l: Locals) {
    && LiveDevice(db.devices, q.device) && CheckLifecycle(db.devices[q.device], q.operation).None?
    && !(q.operation == Move && Powered(db.connections, q.device))
    && q.DesiredRack().Some? && LiveRack(db.racks, q.DesiredRack().value)
    && CheckRack(db.devices[q.device], db.racks[q.DesiredRack().value], q.startU, q.orientation).None?
    && !Conflict(db.occupancies, q.device, q.DesiredRack().value, q.startU,
                 q.startU + db.devices[q.device].heightU - 1)
    && l.device == Some(db.devices[q.device]) && l.rack == Some(db.racks[q.DesiredRack().value])
    && l.at == Some(ActiveAt(db.positions, q.device))
  }

  lemma ReadingPlaces(db: Db, q: Placement, l: Option<Locals>)
    requires PlaceDevice(db, q).Done? ==> l.Some?
    requires l.Some? ==> Reading(db, q, l.value)
    ensures l.Some? ==> PublishPlacement(db, q, l.value).Done? == PlaceDevice(db, q).Done?
    ensures l.Some? && PlaceDevice(db, q).Done? ==> PublishPlacement(db, q, l.value) == PlaceDevice(db, q)
    ensures l.None? ==> PlaceDevice(db, q).Fail?
  {
    hide ActiveAt, Conflict, Powered, CheckLifecycle, CheckRack, PlaceEffect, TargetSnapshot;
  }

  lemma PlaceLocks(db: Db, q: Placement)
    ensures var l := Reads(db, Place(q), 3);
            var may := && LiveDevice(db.devices, q.device) && CheckLifecycle(db.devices[q.device], q.operation).None?
                       && !(q.operation == Move && Powered(db.connections, q.device))
                       && q.DesiredRack().Some? && LiveRack(db.racks, q.DesiredRack().value)
                       && CheckRack(db.devices[q.device], db.racks[q.DesiredRack().value], q.startU,
                                    q.orientation).None?;
            && (l.Some? <==> may)
            && (may ==> l.value == NOTHING_READ.(device := Some(db.devices[q.device]),
                                                 rack := Some(db.racks[q.DesiredRack().value])))
  {
    var r := Place(q);
    hide Reads, Powered, CheckLifecycle, CheckRack;
    ReadsStep(db, r, 1);
    ReadsStep(db, r, 2);
    ReadsStep(db, r, 3);
  }

  lemma PlaceReads(db: Db, q: Placement)
    ensures var l := Reads(db, Place(q), 5);
            && (l.Some? ==> Reading(db, q, l.value))
            && (PlaceDevice(db, q).Done? ==> l.Some?)
  {
    var r := Place(q);
    hide Reads, ActiveAt, Conflict, Powered, CheckLifecycle, CheckRack, PlaceEffect, TargetSnapshot;
    PlaceLocks(db, q);
    ReadsStep(db, r, 4);
    ReadsStep(db, r, 5);
  }

  lemma PlaceAlone(db: Db, q: Placement)
    ensures Faithful(db, Place(q))
  {
    PlaceReads(db, q);
    ReadingPlaces(db, q, Reads(db, Place(q), 5));
    hide Reads, Reading, PlaceDevice, PublishPlacement;
  }

  lemma RemoveAlone(db: Db, d: Id)
    ensures Faithful(db, Remove(d))
  {
    var r := Remove(d);
    hide Reads, ActiveAt, Powered, RemoveEffect;
    ReadsStep(db, r, 1);
    ReadsStep(db, r, 2);
    ReadsStep(db, r, 3);
  }

  lemma UpdateRackAlone(db: Db, r: Request)
    requires r.UpdateRack?
    ensures Faithful(db, r)
  {
    hide Reads;
    ReadsStep(db, r, 1);
    ReadsStep(db, r, 2);
  }

  lemma DeleteRackAlone(db: Db, rack: Id, expected: nat)
    ensures Faithful(db, DeleteRack(rack, expected))
  {
    var r := DeleteRack(rack, expected);
    hide Reads, HasPositions, HasPdus;
    ReadsStep(db, r, 1);
    ReadsStep(db, r, 2);
    ReadsStep(db, r, 3);
  }

  lemma PduAlone(db: Db, r: Request)
    requires r.CreatePdu? || r.UpdatePdu? || r.DeletePdu? || r.ForceArchive?
    ensures Faithful(db, r)
  {
    hide Reads, Impact, ArchiveEffect, RetirePdu;
    ReadsStep(db, r, 1);
    if !r.CreatePdu? {
      ReadsStep(db, r, 2);
    }
  }

  lemma CreateSocketAlone(db: Db, s: Id, p: Id, number: int)
    ensures Faithful(db, CreateSocket(s, p, number))
  {
    hide Reads, NumberTaken;
    ReadsStep(db, CreateSocket(s, p, number), 1);
  }

  lemma UpdateSocketAlone(db: Db, s: Id, number: int)
    ensures Faithful(db, UpdateSocket(s, number))
  {
    var r := UpdateSocket(s, number);
    hide Reads, NumberTaken;
    ReadsStep(db, r, 1);
    ReadsStep(db, r, 2);
    ReadsStep(db, r, 3);
  }

  lemma DeleteSocketAlone(db: Db, s: Id, expected: nat)
    ensures Faithful(db, DeleteSocket(s, expected))
  {
    var r := DeleteSocket(s, expected);
    hide Reads, SocketInUse;
    ReadsStep(db, r, 1);
    ReadsStep(db, r, 2);
    ReadsStep(db, r, 3);
    ReadsStep(db, r, 4);
  }

  lemma ConnectLocks(db: Db, id: Id, s: Id, d: Id, role: Role)
    ensures var l := Reads(db, Connect(id, s, d, role), 4);
            var may := && LiveSocket(db.sockets, s) && LiveDevice(db.devices, d) && LivePdu(db.pdus, db.sockets[s].pdu)
                       && db.sockets[s].status != SocketConnected;
            && (l.Some? <==> may)
            && (may ==> l.value == NOTHING_READ.(socket := Some(db.sockets[s]), device := Some(db.devices[d]),
                                                 pdu := Some(db.pdus[db.sockets[s].pdu])))
  {
    var r := Connect(id, s, d, role);
    hide Reads;
    ReadsStep(db, r, 1);
    ReadsStep(db, r, 2);
    ReadsStep(db, r, 3);
    ReadsStep(db, r, 4);
  }

  lemma ConnectAlone(db: Db, id: Id, s: Id, d: Id, role: Role)
    ensures Faithful(db, Connect(id, s, d, role))
  {
    var r := Connect(id, s, d, role);
    hide Reads, ActiveAt, RoleTaken, ConnectEffect;
    ConnectLocks(db, id, s, d, role);
    ReadsStep(db, r, 5);
    ReadsStep(db, r, 6);
  }

  lemma DisconnectAlone(db: Db, c: Id, expected: nat)
    ensures Faithful(db, Disconnect(c, expected))
  {
    var r := Disconnect(c, expected);
    hide Reads, DisconnectEffect;
    ReadsStep(db, r, 1);
    ReadsStep(db, r, 2);
    ReadsStep(db, r, 3);
    ReadsStep(db, r, 4);
  }

  lemma SubmitAlone(db: Db, id: Id, q: Placement)
    ensures Faithful(db, Submit(id, q))
  {
    var r := Submit(id, q);
    hide Reads, ActiveAt, NewApproval;
    ReadsStep(db, r, 1);
    ReadsStep(db, r, 2);
  }

  lemma RejectAlone(db: Db, r: Request)
    requires r.Reject?
    ensures Faithful(db, r)
  {
    hide Reads, CheckDecision, Claimable;
    ReadsStep(db, r, 1);
    ReadsStep(db, r, 2);
  }

  /** A placement gets to read the same whether or not a record has been decided. */
  lemma ReadingIgnoresDecision(db: Db, q: Placement, l: Locals, a: Id)
    requires a in db.approvals
    ensures Reading(db, q, l) <==> Reading(DecideEffect(db, a, Approved), q, l)
  {
    hide ActiveAt, Conflict, Powered, CheckLifecycle, CheckRack;
  }

  lemma ApproveClaims(db: Db, r: Request)
    requires r.Approve?
    ensures var l := Reads(db, r, 2);
            var may := && r.id in db.approvals && CheckDecision(db.approvals[r.id], r.decision, r.actor).None?
                       && Claimable(db.approvals[r.id], r.decision);
            && (l.Some? <==> may)
            && (may ==> l.value == NOTHING_READ.(record := Some(db.approvals[r.id])))
  {
    hide Reads, CheckDecision, Claimable;
    ReadsStep(db, r, 1);
    ReadsStep(db, r, 2);
  }

  lemma ApproveLocks(db: Db, r: Request)
    requires r.Approve? && Reads(db, r, 2).Some? && r.id in db.approvals
    requires Reads(db, r, 2).value == NOTHING_READ.(record := Some(db.approvals[r.id]))
    ensures var l := Reads(db, r, 5);
            var a := db.approvals[r.id];
            var q := ApprovedPlacement(a, r.position, r.occupancy);
            var may := && LiveDevice(db.devices, q.device) && CheckLifecycle(db.devices[q.device], q.operation).None?
                       && (a.requestedVersion != 0 ==> db.devices[q.device].version == a.requestedVersion)
                       && !(q.operation == Move && Powered(db.connections, q.device))
                       && q.DesiredRack().Some? && LiveRack(db.racks, q.DesiredRack().value)
                       && CheckRack(db.devices[q.device], db.racks[q.DesiredRack().value], q.startU,
                                    q.orientation).None?;
            && (l.Some? <==> may)
            && (may ==> l.value == NOTHING_READ.(record := Some(a), device := Some(db.devices[q.device]),
                                                 rack := Some(db.racks[q.DesiredRack().value])))
  {
    hide Reads, Powered, CheckLifecycle, CheckRack;
    ReadsStep(db, r, 3);
    ReadsStep(db, r, 4);
    ReadsStep(db, r, 5);
  }

  lemma ApproveReads(db: Db, r: Request)
    requires r.Approve?
    ensures var l := Reads(db, r, 7);
            l.Some? ==>
              && r.id in db.approvals && l.value.record == Some(db.approvals[r.id])
              && Reading(db, ApprovedPlacement(db.approvals[r.id], r.position, r.occupancy), l.value)
              && LiveDevice(db.devices, db.approvals[r.id].device)
              && CheckDecision(db.approvals[r.id], r.decision, r.actor).None?
              && Claimable(db.approvals[r.id], r.decision)
              && (db.approvals[r.id].requestedVersion != 0 ==>
                    db.devices[db.approvals[r.id].device].version == db.approvals[r.id].requestedVersion)
  {
    hide Reads, ActiveAt, Conflict, Powered, CheckLifecycle, CheckRack, CheckDecision, Claimable;
    ApproveClaims(db, r);
    if Reads(db, r, 2).Some? {
      ApproveLocks(db, r);
      ReadsStep(db, r, 6);
      ReadsStep(db, r, 7);
    } else {
      GivenUp(db, r, 2, 7);
    }
  }

  lemma ApproveGoesThrough(db: Db, r: Request)
    requires r.Approve? && ApproveRequest(db, r).Done?
    ensures Reads(db, r, 7).Some?
  {
    hide Reads, ActiveAt, Conflict, Powered, CheckLifecycle, CheckRack, PlaceEffect, TargetSnapshot;
    hide CheckDecision, Claimable;
    ApproveClaims(db, r);
    ApproveLocks(db, r);
    ReadsStep(db, r, 6);
    ReadsStep(db, r, 7);
  }

  lemma ApprovedIsPlaced(db: Db, r: Request)
    requires r.Approve? && r.id in db.approvals && LiveDevice(db.devices, db.approvals[r.id].device)
    requires CheckDecision(db.approvals[r.id], r.decision, r.actor).None? && Claimable(db.approvals[r.id], r.decision)
    requires db.approvals[r.id].requestedVersion != 0 ==>
               db.devices[db.approvals[r.id].device].version == db.approvals[r.id].requestedVersion
    ensures ApproveRequest(db, r) ==
            PlaceDevice(DecideEffect(db, r.id, Approved),
                        ApprovedPlacement(db.approvals[r.id], r.position, r.occupancy))
  {
    hide PlaceDevice, CheckDecision, Claimable;
  }

  lemma ApproveAlone(db: Db, r: Request)
    requires r.Approve?
    ensures Faithful(db, r)
  {
    hide Reads, Reading, PlaceDevice, PublishPlacement, ApproveRequest, DecideEffect, ApprovedPlacement;
    hide CheckDecision, Claimable;
    ApproveReads(db, r);
    var l := Reads(db, r, 7);
    if ApproveRequest(db, r).Done? {
      ApproveGoesThrough(db, r);
    }
    if l.Some? {
      ApprovedIsPlaced(db, r);
      var q := ApprovedPlacement(db.approvals[r.id], r.position, r.occupancy);
      ReadingIgnoresDecision(db, q, l.value, r.id);
      ReadingPlaces(DecideEffect(db, r.id, Approved), q, l);
    }
  }

  /**
   * A transaction that runs alone, from its first read to its commit, publishes exactly the tables that its request
   * specifies, and gives up exactly if the request fails: no script refuses too much.
   */
  lemma AloneIsSpecified(db: Db, r: Request)
    ensures Alone(db, r) == match Apply(db, r) case Done(after) => Some(after) case Fail(_) => None
  {
    hide Reads, Alone, Apply;
    assert Faithful(db, r) by {
      hide Faithful;
      match r
      case UpdateDevice(d, expected, height) => UpdateAlone(db, d, expected, height);
      case DeleteDevice(d, expected) => DeleteAlone(db, d, expected);
      case Place(q) => PlaceAlone(db, q);
      case Remove(d) => RemoveAlone(db, d);
      case DeleteRack(rack, expected) => DeleteRackAlone(db, rack, expected);
      case CreateSocket(s, p, number) => CreateSocketAlone(db, s, p, number);
      case UpdateSocket(s, number) => UpdateSocketAlone(db, s, number);
      case DeleteSocket(s, expected) => DeleteSocketAlone(db, s, expected);
      case Connect(id, s, d, role) => ConnectAlone(db, id, s, d, role);
      case Disconnect(c, expected) => DisconnectAlone(db, c, expected);
      case Submit(id, q) => SubmitAlone(db, id, q);
      case Approve(_, _, _, _, _) => ApproveAlone(db, r);
      case Reject(_, _, _) => RejectAlone(db, r);
      case _ =>
        if r.CreateDevice? || r.CreateRack? {
          NoReads(db, r);
        } else if r.UpdateRack? {
          UpdateRackAlone(db, r);
        } else {
          PduAlone(db, r);
        }
    }
  }

  /** So an undisturbed transaction commits exactly when the tables say that its request may succeed. */
  lemma AloneSucceedsIff(db: Db, r: Request)
    requires Inv(db)
    ensures Alone(db, r).Some? <==> Succeeds(db, r)
    ensures Alone(db, r).Some? ==> Leaves(db, r, Alone(db, r).value)
  {
    hide Inv, Alone, Apply, Succeeds, Leaves;
    AloneIsSpecified(db, r);
    RequestOutcome(db, r);
  }
}
