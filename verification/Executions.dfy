// Theorems about whole concurrent executions.

module Executions {
  import opened Wrappers
  import opened Inventory
  import opened Transactions
  import opened InventoryProofs
  import opened Interleaving
  import opened Interference
  import opened Refinement
  import opened Outcomes

  /** Any number of transactions, begun at any time, advancing in any order, from empty tables. */
  ghost predicate Execution(states: seq<System>, actions: seq<Action>) {
    && |states| == |actions| + 1
    && states[0] == INITIAL
    && forall i :: 0 <= i < |actions| ==> Step(states[i], actions[i], states[i + 1])
  }

  /** The request that commits at step `i`, if one does. */
  function Committed(states: seq<System>, actions: seq<Action>, i: nat): Option<Request>
    requires i < |actions| && |states| == |actions| + 1
  {
    if actions[i].Finish? && actions[i].t in states[i].threads
    then Some(states[i].threads[actions[i].t].request) else None
  }

  lemma InitialInv()
    ensures SystemInv(INITIAL)
  {
    hide Inv;
    EmptyTablesInv();
  }

  lemma StepKeepsInv(s: System, a: Action, s': System)
    requires SystemInv(s) && Step(s, a, s')
    ensures SystemInv(s')
  {
    hide SystemInv, Step;
    match a
    case Begin(t, r) => BeginKeeps(s, t, r, s');
    case Advance(t) => AdvanceKeeps(s, t, s');
    case Finish(t) => FinishKeeps(s, t, s');
    case GiveUp(t) => GiveUpKeeps(s, t, s');
  }

  lemma {:induction false} AlwaysInv(states: seq<System>, actions: seq<Action>, i: nat)
    requires Execution(states, actions) && i < |states|
    ensures SystemInv(states[i])
    decreases i
  {
    hide SystemInv, Step;
    if i == 0 {
      InitialInv();
    } else {
      AlwaysInv(states, actions, i - 1);
      StepKeepsInv(states[i - 1], actions[i - 1], states[i]);
    }
  }

  /**
   * Serializability: the committed tables change only when a transaction commits, and then as if it
   * had run alone at that moment. A submission, which reads without locks, adds a pending record of what
   * was asked for, and what the record says of its device is true at the version it names.
   */
  lemma StepIsSerial(states: seq<System>, actions: seq<Action>, i: nat)
    requires Execution(states, actions) && i < |actions|
    ensures match Committed(states, actions, i)
            case None => states[i + 1].db == states[i].db
            case Some(r) => Next(states[i].db, r, states[i + 1].db)
  {
    AlwaysInv(states, actions, i);
    assert Step(states[i], actions[i], states[i + 1]);
    if actions[i].Finish? {
      hide SystemInv, Next;
      FinishKeeps(states[i], actions[i].t, states[i + 1]);
    }
  }

  /**
   * What a commit means for the tables: the request could succeed on the tables as they were at that moment, and
   * they now show exactly what it asked for. A submission leaves its record and nothing else.
   */
  lemma CommitLeaves(states: seq<System>, actions: seq<Action>, i: nat, r: Request)
    requires Execution(states, actions) && i < |actions| && Committed(states, actions, i) == Some(r)
    ensures !r.Submit? ==> Succeeds(states[i].db, r) && Leaves(states[i].db, r, states[i + 1].db)
    ensures r.Submit? ==>
              var before, after := states[i].db, states[i + 1].db;
              && r.id !in before.approvals && r.id in after.approvals
              && after == before.(approvals := after.approvals) && OnlyRow(before.approvals, after.approvals, r.id)
              && AsksFor(after.approvals[r.id], r.placement) && after.approvals[r.id].status == Pending
  {
    hide Step, Apply, Succeeds, Leaves, AsksFor, Inv;
    StepIsSerial(states, actions, i);
    TablesInv(states, actions, i);
    if !r.Submit? {
      RequestOutcome(states[i].db, r);
    }
  }

  lemma TablesInv(states: seq<System>, actions: seq<Action>, i: nat)
    requires Execution(states, actions) && i < |states|
    ensures Inv(states[i].db)
  {
    AlwaysInv(states, actions, i);
  }

  // ----- what the invariant means for an operator -----

  /**
   * In every reachable state a live connection has a live socket on a live PDU in a live rack, and its
   * device sits in that rack and nowhere else.
   */
  lemma NoDanglingConnection(states: seq<System>, actions: seq<Action>, i: nat, c: Id)
    requires Execution(states, actions) && i < |states|
    requires LiveConnection(states[i].db.connections, c)
    ensures var db := states[i].db;
            var conn := db.connections[c];
            && LiveSocket(db.sockets, conn.socket) && db.sockets[conn.socket].status == SocketConnected
            && LivePdu(db.pdus, db.sockets[conn.socket].pdu)
            && LiveRack(db.racks, db.pdus[db.sockets[conn.socket].pdu].rack)
            && LiveDevice(db.devices, conn.device) && db.devices[conn.device].lifecycle == Running
            && ActiveAt(db.positions, conn.device).Some?
            && ActiveAt(db.positions, conn.device).value.rack == db.pdus[db.sockets[conn.socket].pdu].rack
  {
    TablesInv(states, actions, i);
    var db := states[i].db;
    var rack := db.pdus[db.sockets[db.connections[c].socket].pdu].rack;
    assert SitsIn(db.positions, db.connections[c].device, rack);
    var p :| Holds(db.positions, p, db.connections[c].device) && db.positions[p].at.rack == rack;
    assert SitsAt(db.positions, db.connections[c].device, Some(db.positions[p].at));
    SitsAtActive(db.positions, db.connections[c].device, Some(db.positions[p].at));
  }

  /** A live socket is connected exactly when one live connection uses it, and only one ever does. */
  lemma SocketStatusIsTruthful(states: seq<System>, actions: seq<Action>, i: nat, s: Id)
    requires Execution(states, actions) && i < |states|
    requires LiveSocket(states[i].db.sockets, s)
    ensures states[i].db.sockets[s].status == SocketConnected <==> SocketInUse(states[i].db.connections, s)
    ensures forall c, c' | LiveConnection(states[i].db.connections, c) && LiveConnection(states[i].db.connections, c')
                           && states[i].db.connections[c].socket == states[i].db.connections[c'].socket == s :: c == c'
  {
    TablesInv(states, actions, i);
  }

  /** Two devices never share a U of one rack, although the overlap check runs before the writes. */
  lemma NoSharedU(states: seq<System>, actions: seq<Action>, i: nat, p: Id, q: Id, u: int)
    requires Execution(states, actions) && i < |states|
    requires LivePosition(states[i].db.positions, p) && LivePosition(states[i].db.positions, q)
    requires states[i].db.positions[p].at.rack == states[i].db.positions[q].at.rack
    requires states[i].db.positions[p].at.startU <= u <= states[i].db.positions[p].at.endU
    requires states[i].db.positions[q].at.startU <= u <= states[i].db.positions[q].at.endU
    ensures p == q
  {
    TablesInv(states, actions, i);
    var db := states[i].db;
    var o :| Mirrors(db.positions, db.occupancies, o, p);
    var o' :| Mirrors(db.positions, db.occupancies, o', q);
    assert RangesOverlap(db.occupancies[o].startU, db.occupancies[o].endU,
                         db.occupancies[o'].startU, db.occupancies[o'].endU);
  }

  /** No live position and no live PDU refers to a deleted rack. */
  lemma DeletedRackIsEmpty(states: seq<System>, actions: seq<Action>, i: nat, r: Id)
    requires Execution(states, actions) && i < |states|
    requires !LiveRack(states[i].db.racks, r)
    ensures !HasPositions(states[i].db.positions, r) && !HasPdus(states[i].db.pdus, r)
  {
    TablesInv(states, actions, i);
  }

  // ----- a device's version determines its state -----

  lemma StepRespects(states: seq<System>, actions: seq<Action>, i: nat)
    requires Execution(states, actions) && i < |actions|
    ensures DevicesRespect(states[i].db, states[i + 1].db,
                           match Committed(states, actions, i)
                           case None => {}
                           case Some(r) => Footprint(states[i].db, r))
  {
    StepIsSerial(states, actions, i);
    TablesInv(states, actions, i);
    hide Execution, Inv, Footprint, Next, ConnectionsRespect, RacksRespect, PdusRespect, ApprovalsRespect;
    match Committed(states, actions, i) {
      case None => SameTablesRespect(states[i].db, states[i + 1].db, {});
      case Some(r) => NextRespects(states[i].db, r, states[i + 1].db);
    }
  }

  lemma {:induction false} VersionsGrow(states: seq<System>, actions: seq<Action>, i: nat, j: nat, d: Id)
    requires Execution(states, actions) && i <= j < |states| && d in states[i].db.devices
    ensures d in states[j].db.devices && states[i].db.devices[d].version <= states[j].db.devices[d].version
    decreases j
  {
    hide Step, SamePlace, Committed, Footprint;
    if i < j {
      VersionsGrow(states, actions, i, j - 1, d);
      StepRespects(states, actions, j - 1);
    }
  }

  lemma OnePositionAlways(states: seq<System>, actions: seq<Action>, i: nat)
    requires Execution(states, actions) && i < |states|
    ensures OnePosition(states[i].db.positions)
  {
    TablesInv(states, actions, i);
  }

  /** Across a run, one version of a device means one height, lifecycle, deletion mark and position. */
  lemma {:induction false} VersionDeterminesDevice(states: seq<System>, actions: seq<Action>, i: nat, j: nat, d: Id)
    requires Execution(states, actions) && i <= j < |states| && d in states[i].db.devices
    requires d in states[j].db.devices && states[i].db.devices[d].version == states[j].db.devices[d].version
    ensures states[i].db.devices[d] == states[j].db.devices[d]
    ensures ActiveAt(states[i].db.positions, d) == ActiveAt(states[j].db.positions, d)
    decreases j
  {
    hide Step, LayoutOk, PowerOk, RecordsOk, SamePlace, Committed, Footprint, ActiveAt;
    if i < j {
      VersionsGrow(states, actions, i, j - 1, d);
      StepRespects(states, actions, j - 1);
      VersionDeterminesDevice(states, actions, i, j - 1, d);
      OnePositionAlways(states, actions, j);
      SamePlaceSameActive(states[j - 1].db.positions, states[j].db.positions, d);
    }
  }

  lemma SamePlaceSameActive(before: map<Id, Position>, after: map<Id, Position>, d: Id)
    requires SamePlace(before, after, d) && OnePosition(after)
    ensures ActiveAt(before, d) == ActiveAt(after, d)
  {
    SitsAtSamePlace(before, after, d, ActiveAt(before, d));
    SitsAtActive(after, d, ActiveAt(before, d));
  }

  // ----- position history -----

  /** Replaying a device's history reconstructs where it sits, in every reachable state. */
  lemma HistoryReplays(states: seq<System>, actions: seq<Action>, i: nat, d: Id)
    requires Execution(states, actions) && i < |states| && d in states[i].db.devices
    ensures LastTo(states[i].db.history, d) == ActiveAt(states[i].db.positions, d)
    ensures Chained(states[i].db.history)
  {
    TablesInv(states, actions, i);
    SitsAtActive(states[i].db.positions, d, LastTo(states[i].db.history, d));
  }

  // ----- approvals take effect exactly once -----

  lemma StepRespectsApprovals(states: seq<System>, actions: seq<Action>, i: nat)
    requires Execution(states, actions) && i < |actions|
    ensures ApprovalsRespect(states[i].db, states[i + 1].db,
                             match Committed(states, actions, i)
                             case None => {}
                             case Some(r) => Footprint(states[i].db, r))
  {
    StepIsSerial(states, actions, i);
    TablesInv(states, actions, i);
    hide Execution, Inv, Footprint, Next, ConnectionsRespect, RacksRespect, PdusRespect, DevicesRespect;
    match Committed(states, actions, i) {
      case None => SameTablesRespect(states[i].db, states[i + 1].db, {});
      case Some(r) => NextRespects(states[i].db, r, states[i + 1].db);
    }
  }

  /** The request is a decision on record `a`. */
  predicate Decides(r: Request, a: Id) {
    (r.Approve? || r.Reject?) && r.id == a
  }

  /** Only a decision changes a record, only a pending one, and it leaves the verdict it names. */
  lemma RecordStep(states: seq<System>, actions: seq<Action>, i: nat, a: Id)
    requires Execution(states, actions) && i < |actions| && a in states[i].db.approvals
    ensures a in states[i + 1].db.approvals
    ensures var r := Committed(states, actions, i);
            var before, after := states[i].db.approvals[a], states[i + 1].db.approvals[a];
            if r.Some? && Decides(r.value, a)
            then before.status == Pending && after.status == if r.value.Approve? then Approved else Rejected
            else after == before
  {
    hide Step;
    StepRespectsApprovals(states, actions, i);
    StepIsSerial(states, actions, i);
    var r := Committed(states, actions, i);
    if r.Some? {
      if Decides(r.value, a) {
        DecisionDecides(states[i].db, r.value, states[i + 1].db);
      } else {
        hide Next;
        assert ApprovalKey(a) !in Footprint(states[i].db, r.value);
      }
    }
  }

  lemma DecisionDecides(db: Db, r: Request, db': Db)
    requires (r.Approve? || r.Reject?) && Apply(db, r) == Done(db')
    ensures r.id in db.approvals && r.id in db'.approvals && db.approvals[r.id].status == Pending
    ensures db'.approvals[r.id].status == if r.Approve? then Approved else Rejected
  {
    if r.Approve? {
      var q := ApprovedPlacement(db.approvals[r.id], r.position, r.occupancy);
      PlaceCommutesWithDecision(db, q, r.id, Approved);
      PlaceAdvancesDevice(db, q);
    }
  }

  /** How often an approval of record `a` committed in the first `n` steps. */
  ghost function Approvals(states: seq<System>, actions: seq<Action>, a: Id, n: nat): nat
    requires |states| == |actions| + 1 && n <= |actions|
  {
    if n == 0 then 0
    else
      var r := Committed(states, actions, n - 1);
      Approvals(states, actions, a, n - 1) + if r.Some? && r.value.Approve? && r.value.id == a then 1 else 0
  }

  /** A record is approved exactly when one approval of it has committed, and none ever commits twice. */
  lemma {:induction false} ApprovedExactlyOnce(states: seq<System>, actions: seq<Action>, a: Id, n: nat)
    requires Execution(states, actions) && n < |states|
    ensures Approvals(states, actions, a, n) ==
            if a in states[n].db.approvals && states[n].db.approvals[a].status == Approved then 1 else 0
    decreases n
  {
    hide Step, Next;
    if n > 0 {
      ApprovedExactlyOnce(states, actions, a, n - 1);
      if a in states[n - 1].db.approvals {
        RecordStep(states, actions, n - 1, a);
      } else {
        NewRecordStep(states, actions, n - 1, a);
      }
    }
  }

  /** A record starts pending. */
  lemma NewRecordStep(states: seq<System>, actions: seq<Action>, i: nat, a: Id)
    requires Execution(states, actions) && i < |actions| && a !in states[i].db.approvals
    ensures a in states[i + 1].db.approvals ==> states[i + 1].db.approvals[a].status == Pending
    ensures var r := Committed(states, actions, i); r.Some? ==> !Decides(r.value, a)
  {
    hide Step;
    StepIsSerial(states, actions, i);
    var r := Committed(states, actions, i);
    if r.Some? && !r.value.Submit? {
      NewRecordOnlyBySubmit(states[i].db, r.value, states[i + 1].db, a);
    }
  }

  lemma NewRecordOnlyBySubmit(db: Db, r: Request, db': Db, a: Id)
    requires !r.Submit? && Apply(db, r) == Done(db') && a !in db.approvals
    ensures a !in db'.approvals && !Decides(r, a)
  {
    if r.Approve? {
      hide Apply, ApproveRequest, PlaceDevice;
      ApplyApprove(db, r);
      var q := ApprovalInParts(db, r);
    } else {
      hide ActiveAt, Active, Powered, Conflict, Impact, NumberTaken, SocketInUse, RoleTaken, HasPositions, HasPdus;
      hide CheckLifecycle, CheckRack, DeleteSockets, DropConnections, ReleaseOccupancies, ApproveRequest;
    }
  }

  /** Once decided, a record never changes again. */
  lemma {:induction false} DecisionIsFinal(states: seq<System>, actions: seq<Action>, i: nat, j: nat, a: Id)
    requires Execution(states, actions) && i <= j < |states| && a in states[i].db.approvals
    requires states[i].db.approvals[a].status != Pending
    ensures a in states[j].db.approvals && states[j].db.approvals[a] == states[i].db.approvals[a]
    decreases j
  {
    hide Step;
    if i < j {
      DecisionIsFinal(states, actions, i, j - 1, a);
      RecordStep(states, actions, j - 1, a);
    }
  }

  /** Of the records requested at one version of a device, at most one is ever approved. */
  lemma OneApprovalPerVersion(states: seq<System>, actions: seq<Action>, i: nat, a: Id, a': Id)
    requires Execution(states, actions) && i < |states|
    requires a in states[i].db.approvals && a' in states[i].db.approvals
    requires states[i].db.approvals[a].status == Approved && states[i].db.approvals[a'].status == Approved
    requires states[i].db.approvals[a].device == states[i].db.approvals[a'].device
    requires states[i].db.approvals[a].requestedVersion == states[i].db.approvals[a'].requestedVersion
    ensures a == a'
  {
    TablesInv(states, actions, i);
  }

  /** Where a record asks its device to go. */
  function RequestedAt(a: Approval, rack: Rack): Snapshot {
    Snapshot(a.targetRack, rack.room, rack.dataCenter, a.targetStartU, a.targetHeightU,
             a.targetStartU + a.targetHeightU - 1,
             if a.targetOrientation == Unspecified then Normal else a.targetOrientation)
  }

  /** One new history entry takes the device from where it was requested to where it was asked to go. */
  ghost predicate MovedAsRequested(before: Db, a: Approval, after: Db) {
    && LiveRack(before.racks, a.targetRack)
    && var at := RequestedAt(a, before.racks[a.targetRack]);
       && after.history ==
            before.history + [HistoryEntry(a.device, if a.operation == Move then Move else Assign, a.source, Some(at))]
       && SitsAt(after.positions, a.device, Some(at))
  }

  /** The step that approves a record does what the record asked for, from the position it named. */
  lemma ApprovalMovesAsRequested(states: seq<System>, actions: seq<Action>, i: nat, r: Request)
    requires Execution(states, actions) && i < |actions|
    requires Committed(states, actions, i) == Some(r) && r.Approve?
    ensures r.id in states[i].db.approvals
    ensures MovedAsRequested(states[i].db, states[i].db.approvals[r.id], states[i + 1].db)
  {
    hide Step, Inv, ApproveRequest, MovedAsRequested;
    StepIsSerial(states, actions, i);
    TablesInv(states, actions, i);
    ApprovalEffect(states[i].db, r, states[i + 1].db);
  }

  /** From its submission on, a record stays the same request. */
  lemma {:induction false} RequestStays(states: seq<System>, actions: seq<Action>, i: nat, j: nat, a: Id)
    requires Execution(states, actions) && i <= j < |states| && a in states[i].db.approvals
    ensures a in states[j].db.approvals && SameRequest(states[j].db.approvals[a], states[i].db.approvals[a])
    decreases j
  {
    hide Step, Committed, Footprint;
    if i < j {
      RequestStays(states, actions, i, j - 1, a);
      StepRespectsApprovals(states, actions, j - 1);
    }
  }

  /** The device now sits exactly where the placement asked, with one history entry from where it sat. */
  ghost predicate PlacedAs(before: Db, q: Placement, after: Db) {
    var at := ActiveAt(after.positions, q.device);
    && q.device in before.devices && at.Some?
    && (q.target == Some(at.value.rack) || (q.target == None && q.alias == Some(at.value.rack)))
    && at.value.startU == q.startU && at.value.heightU == before.devices[q.device].heightU
    && at.value.endU == q.startU + at.value.heightU - 1
    && at.value.orientation == (if q.orientation == Unspecified then Normal else q.orientation)
    && after.history == before.history + [HistoryEntry(q.device, if q.operation == Move then Move else Assign,
                                                       ActiveAt(before.positions, q.device), at)]
  }

  /** What an operator submitted is what an approval of the record does, however much has happened in between. */
  lemma ApprovedAsSubmitted(states: seq<System>, actions: seq<Action>, i: nat, j: nat, id: Id, q: Placement, r: Request)
    requires Execution(states, actions) && i < j < |actions|
    requires Committed(states, actions, i) == Some(Submit(id, q))
    requires Committed(states, actions, j) == Some(r) && r.Approve? && r.id == id
    ensures PlacedAs(states[j].db, q, states[j + 1].db)
  {
    hide Step, Inv, ApproveRequest, PlacedAs, Apply;
    StepIsSerial(states, actions, i);
    RequestStays(states, actions, i + 1, j, id);
    StepIsSerial(states, actions, j);
    TablesInv(states, actions, j + 1);
    OnePositionOf(states[j + 1].db);
    assert ApproveRequest(states[j].db, r) == Done(states[j + 1].db) by {
      ApplyApprove(states[j].db, r);
    }
    ApprovalPlaces(states[j].db, r, states[j + 1].db, q);
  }

  lemma ApprovalPlaces(db: Db, r: Request, db': Db, q: Placement)
    requires r.Approve? && ApproveRequest(db, r) == Done(db') && OnePosition(db'.positions)
    requires r.id in db.approvals && AsksFor(db.approvals[r.id], q)
    ensures PlacedAs(db, q, db')
  {
    var granted := ApprovalInParts(db, r);
    PlacedAt(db, granted);
    hide PlaceDevice, ApproveRequest, OnePosition, SitsAt, ActiveAt;
    var rack := granted.DesiredRack().value;
    var at := TargetSnapshot(db.devices[granted.device], rack, db.racks[rack], granted.startU, granted.orientation);
    SitsAtActive(db'.positions, q.device, Some(at));
  }

  lemma PlacedAt(db: Db, q: Placement)
    requires PlaceDevice(db, q).Done?
    ensures q.DesiredRack().Some? && LiveRack(db.racks, q.DesiredRack().value) && q.device in db.devices
    ensures var rack := q.DesiredRack().value;
            var at := TargetSnapshot(db.devices[q.device], rack, db.racks[rack], q.startU, q.orientation);
            var after := PlaceDevice(db, q).db;
            && SitsAt(after.positions, q.device, Some(at))
            && after.history ==
                 db.history + [HistoryEntry(q.device, q.operation, ActiveAt(db.positions, q.device), Some(at))]
  {
    var after := PlaceDevice(db, q).db;
    assert Holds(after.positions, q.position, q.device);
  }

  lemma ApprovalEffect(db: Db, r: Request, db': Db)
    requires Inv(db) && r.Approve? && ApproveRequest(db, r) == Done(db')
    ensures r.id in db.approvals && MovedAsRequested(db, db.approvals[r.id], db')
  {
    hide Inv, PlaceDevice, SitsAt, ActiveAt, OnePosition, CheckDecision, Claimable;
    var a := db.approvals[r.id];
    var q := ApprovedPlacement(a, r.position, r.occupancy);
    RecordIsAdmissible(db, r.id);
    OnePositionOf(db);
    PlaceCommutesWithDecision(db, q, r.id, Approved);
    PlacedAt(db, q);
    SitsAtActive(db.positions, a.device, a.source);
  }
}
