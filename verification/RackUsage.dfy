// The free-segment scan on the racks of the inventory: when it is right, and how a rack gets to where it is not.

module RackUsage {
  import opened Inventory
  import opened Transactions
  import opened InventoryProofs
  import opened ULayout

  ghost predicate InRack(db: Db, p: Id, rack: Id) {
    LivePosition(db.positions, p) && db.positions[p].at.rack == rack
  }

  /** A device sits at `u` in the rack. */
  ghost predicate StandsAt(db: Db, rack: Id, u: int) {
    exists p :: InRack(db, p, rack) && db.positions[p].at.startU <= u <= db.positions[p].at.endU
  }

  /** The live positions of a rack, each once, in ascending order of their first U. */
  ghost predicate Lists(db: Db, rack: Id, ids: seq<Id>) {
    && (forall p :: InRack(db, p, rack) ==> p in ids)
    && (forall i :: 0 <= i < |ids| ==> InRack(db, ids[i], rack))
    && (forall i, j :: 0 <= i < j < |ids| ==> ids[i] != ids[j])
    && (forall i, j :: 0 <= i < j < |ids| ==> db.positions[ids[i]].at.startU <= db.positions[ids[j]].at.startU)
  }

  ghost function Spans(db: Db, rack: Id, ids: seq<Id>): (spans: seq<Span>)
    requires Lists(db, rack, ids)
    ensures |spans| == |ids|
    ensures forall i :: 0 <= i < |ids| ==>
              spans[i] == Span(db.positions[ids[i]].at.startU, db.positions[ids[i]].at.endU)
  {
    seq(|ids|, i requires 0 <= i < |ids| => Span(db.positions[ids[i]].at.startU, db.positions[ids[i]].at.endU))
  }

  // ----- every rack can be listed -----

  lemma {:induction false} LastToStart(positions: map<Id, Position>, ids: set<Id>) returns (p: Id)
    requires ids != {} && ids <= positions.Keys
    ensures p in ids && forall q :: q in ids ==> positions[q].at.startU <= positions[p].at.startU
  {
    var one :| one in ids;
    var rest := ids - {one};
    p := one;
    if rest != {} {
      var last := LastToStart(positions, rest);
      p := if positions[one].at.startU < positions[last].at.startU then last else one;
    }
    assert forall q :: q in ids ==> q == one || q in rest;
  }

  lemma {:induction false} Ordered(positions: map<Id, Position>, ids: set<Id>) returns (order: seq<Id>)
    requires ids <= positions.Keys
    ensures forall p :: p in order <==> p in ids
    ensures forall i, j :: 0 <= i < j < |order| ==> order[i] != order[j]
    ensures forall i, j :: 0 <= i < j < |order| ==> positions[order[i]].at.startU <= positions[order[j]].at.startU
  {
    order := [];
    if ids != {} {
      var last := LastToStart(positions, ids);
      var front := Ordered(positions, ids - {last});
      order := front + [last];
      forall p
        ensures p in order <==> p in ids
      {
        assert p in order <==> p in front || p == last;
      }
    }
  }

  lemma ListExists(db: Db, rack: Id) returns (ids: seq<Id>)
    ensures Lists(db, rack, ids)
  {
    var all := set p | p in db.positions && InRack(db, p, rack);
    ids := Ordered(db.positions, all);
    forall p
      ensures InRack(db, p, rack) <==> p in ids
    {
      assert InRack(db, p, rack) <==> p in all;
    }
    forall i | 0 <= i < |ids|
      ensures InRack(db, ids[i], rack)
    {
      assert ids[i] in ids;
    }
  }

  lemma RackSpans(db: Db, p: Id, rack: Id)
    requires Inv(db) && InRack(db, p, rack)
    ensures db.positions[p].at.startU <= db.positions[p].at.endU
  {
    hide OnePosition, MirrorOk, DisjointOk, PowerOk, RecordsOk;
  }

  lemma ListedAt(db: Db, rack: Id, ids: seq<Id>, p: Id) returns (i: nat)
    requires Lists(db, rack, ids) && InRack(db, p, rack)
    ensures i < |ids| && ids[i] == p
  {
    i :| i < |ids| && ids[i] == p;
  }

  lemma ListedIn(db: Db, rack: Id, ids: seq<Id>, i: nat)
    requires Lists(db, rack, ids) && i < |ids|
    ensures InRack(db, ids[i], rack)
  {
  }

  lemma ListCovers(db: Db, rack: Id, ids: seq<Id>, u: int)
    requires Lists(db, rack, ids)
    ensures Occupied(Spans(db, rack, ids), u) <==> StandsAt(db, rack, u)
  {
    hide Lists;
    var spans := Spans(db, rack, ids);
    if StandsAt(db, rack, u) {
      var p :| InRack(db, p, rack) && db.positions[p].at.startU <= u <= db.positions[p].at.endU;
      var i := ListedAt(db, rack, ids, p);
      assert spans[i].startU <= u <= spans[i].endU;
    }
    if Occupied(spans, u) {
      var i: nat :| i < |spans| && spans[i].startU <= u <= spans[i].endU;
      ListedIn(db, rack, ids, i);
    }
  }

  lemma ListReaches(db: Db, rack: Id, ids: seq<Id>, u: int)
    requires Lists(db, rack, ids)
    ensures Below(Spans(db, rack, ids), u) <==> exists p :: InRack(db, p, rack) && u < db.positions[p].at.startU
  {
    hide Lists;
    var spans := Spans(db, rack, ids);
    if p :| InRack(db, p, rack) && u < db.positions[p].at.startU {
      var i := ListedAt(db, rack, ids, p);
      assert u < spans[i].startU;
    }
    if Below(spans, u) {
      var i: nat :| i < |spans| && u < spans[i].startU;
      ListedIn(db, rack, ids, i);
    }
  }

  /** The scan may run over such a list, and what the list covers is what is occupied in the rack. */
  lemma ListedSpans(db: Db, rack: Id, ids: seq<Id>)
    requires Inv(db) && Lists(db, rack, ids)
    ensures Scannable(Spans(db, rack, ids))
    ensures forall u :: Occupied(Spans(db, rack, ids), u) <==> StandsAt(db, rack, u)
    ensures forall u :: Below(Spans(db, rack, ids), u) <==>
                        exists p :: InRack(db, p, rack) && u < db.positions[p].at.startU
  {
    hide Inv, Occupied, Below, StandsAt;
    var spans := Spans(db, rack, ids);
    forall i | 0 <= i < |ids|
      ensures spans[i].startU <= spans[i].endU
    {
      RackSpans(db, ids[i], rack);
    }
    forall u
      ensures Occupied(spans, u) <==> StandsAt(db, rack, u)
      ensures Below(spans, u) <==> exists p :: InRack(db, p, rack) && u < db.positions[p].at.startU
    {
      ListCovers(db, rack, ids, u);
      ListReaches(db, rack, ids, u);
    }
  }

  // ----- when the scan of a rack is right -----

  /** What the scan makes of the rack. */
  ghost predicate Scans(db: Db, rack: Id, free: seq<Free>)
    requires rack in db.racks
  {
    && Maximal(free)
    && forall u :: Covers(free, u) <==>
         1 <= u && !StandsAt(db, rack, u)
         && (u <= db.racks[rack].uHeight || exists p :: InRack(db, p, rack) && u < db.positions[p].at.startU)
  }

  /** The scan over the listed positions of a rack. */
  method FreeOf(ghost db: Db, ghost rack: Id, ghost ids: seq<Id>, spans: seq<Span>, uHeight: int)
    returns (free: seq<Free>)
    requires Inv(db) && LiveRack(db.racks, rack) && Lists(db, rack, ids)
    requires spans == Spans(db, rack, ids) && uHeight == db.racks[rack].uHeight
    ensures Scans(db, rack, free)
  {
    hide Inv;
    ListedSpans(db, rack, ids);
    free := FreeSegments(spans, uHeight);
  }

  /** The U's that the scan reports are the rack's free ones. */
  ghost predicate Exact(db: Db, rack: Id, free: seq<Free>)
    requires rack in db.racks
  {
    forall u :: Covers(free, u) <==> 1 <= u <= db.racks[rack].uHeight && !StandsAt(db, rack, u)
  }

  /** Every U between the rack's end and a device above it is occupied. */
  ghost predicate NothingFloats(db: Db, rack: Id)
    requires rack in db.racks
  {
    forall p, u :: InRack(db, p, rack) && db.racks[rack].uHeight < u < db.positions[p].at.startU && 1 <= u ==>
                     StandsAt(db, rack, u)
  }

  lemma RackExactIff(db: Db, rack: Id, free: seq<Free>)
    requires rack in db.racks && Scans(db, rack, free)
    ensures Exact(db, rack, free) <==> NothingFloats(db, rack)
  {
    hide StandsAt, Covers, Maximal;
  }

  // ----- how a rack gets there -----

  /**
   * Placing a device and then lowering the rack below it: nothing refuses the update, the invariant survives, the
   * device sits above the end of its rack, and the scan reports every unoccupied U in between.
   */
  lemma LoweringFloats(db: Db, q: Placement, status: RackStatus, height: nat, free: seq<Free>)
    requires Inv(db) && PlaceDevice(db, q).Done? && height < q.startU
    ensures q.DesiredRack().Some? && LiveRack(PlaceDevice(db, q).db.racks, q.DesiredRack().value)
    ensures var placed, rack := PlaceDevice(db, q).db, q.DesiredRack().value;
            var lowered := SetRack(placed, rack, status, height);
            && Apply(placed, UpdateRack(rack, placed.racks[rack].version, status, height)) == Done(lowered)
            && Inv(lowered) && InRack(lowered, q.position, rack)
            && lowered.positions[q.position].device == q.device
            && lowered.racks[rack].uHeight < lowered.positions[q.position].at.startU == q.startU
            && (Scans(lowered, rack, free) ==>
                  forall u :: height < u < q.startU && !StandsAt(lowered, rack, u) ==> Covers(free, u))
  {
    hide Inv;
    PlaceDeviceKeepsInv(db, q);
    PlacedRow(db, q);
    hide PlaceDevice, StandsAt;
    var placed, rack := PlaceDevice(db, q).db, q.DesiredRack().value;
    var lower := UpdateRack(rack, placed.racks[rack].version, status, height);
    ApplyKeepsInv(placed, lower);
    var lowered := SetRack(placed, rack, status, height);
    assert InRack(lowered, q.position, rack);
  }

  lemma PlacedRow(db: Db, q: Placement)
    requires PlaceDevice(db, q).Done?
    ensures q.DesiredRack().Some? && LiveRack(PlaceDevice(db, q).db.racks, q.DesiredRack().value)
    ensures InRack(PlaceDevice(db, q).db, q.position, q.DesiredRack().value)
    ensures PlaceDevice(db, q).db.positions[q.position].device == q.device
    ensures PlaceDevice(db, q).db.positions[q.position].at.startU == q.startU
  {
    hide ActiveAt, Powered, Conflict;
  }

  lemma OthersStoodThere(db: Db, q: Placement, p: Id)
    requires Inv(db) && PlaceDevice(db, q).Done? && LivePosition(PlaceDevice(db, q).db.positions, p) && p != q.position
    ensures LivePosition(db.positions, p) && PlaceDevice(db, q).db.positions[p] == db.positions[p]
    ensures db.positions[p].device != q.device
  {
    hide Inv, CheckLifecycle, CheckRack, Powered, Conflict, ActiveAt, ReleaseDevice;
    OnePositionOf(db);
    ReleasedPositions(db, q.device);
    var released := ReleaseDevice(db, q.device).positions;
    assert p in released && PlaceDevice(db, q).db.positions[p] == released[p];
    hide PlaceDevice;
    assert Holds(released, p, released[p].device);
  }

  /** For a device that is alone in its rack, the scan is then wrong unless the device starts right at the new end. */
  lemma LoweringMisleadsIff(db: Db, q: Placement, status: RackStatus, height: nat, free: seq<Free>)
    requires Inv(db) && PlaceDevice(db, q).Done? && height < q.startU && q.DesiredRack().Some?
    requires forall p :: InRack(db, p, q.DesiredRack().value) ==> db.positions[p].device == q.device
    ensures var placed, rack := PlaceDevice(db, q).db, q.DesiredRack().value;
            && rack in placed.racks
            && (Scans(SetRack(placed, rack, status, height), rack, free) ==>
                  (Exact(SetRack(placed, rack, status, height), rack, free) <==> height + 1 == q.startU))
  {
    hide Inv, PlaceDevice, Scans, Exact;
    LoweringFloats(db, q, status, height, free);
    var placed, rack := PlaceDevice(db, q).db, q.DesiredRack().value;
    var lowered := SetRack(placed, rack, status, height);
    if Scans(lowered, rack, free) {
      RackExactIff(lowered, rack, free);
      forall p | InRack(lowered, p, rack)
        ensures p == q.position
      {
        if p != q.position {
          OthersStoodThere(db, q, p);
          assert false;
        }
      }
      assert !StandsAt(lowered, rack, height + 1) || height + 1 == q.startU;
    }
  }
}
