// The hierarchy stays well-formed, and copies and moves carry whole subtrees faithfully.

module HierarchyProofs {
  import opened Wrappers
  import opened Hierarchy

  // ----- one row at a time -----

  lemma PutCenter(t: Tree, c: Id, row: Center)
    requires WellFormed(t)
    requires if row.deleted then forall r :: !RoomIn(t, r, c) else !CenterCodeTaken(t, row.code, Some(c))
    ensures WellFormed(t.(centers := t.centers[c := row]))
  {
    var t' := t.(centers := t.centers[c := row]);
    assert ParentsLive(t') by {
      forall r | LiveRoom(t', r)
        ensures LiveCenter(t', t'.rooms[r].center)
      {
        assert LiveRoom(t, r) && RoomIn(t, r, t.rooms[r].center);
      }
      forall k | LiveRack(t', k)
        ensures LiveRoom(t', t'.racks[k].room) && t'.racks[k].center == t'.rooms[t'.racks[k].room].center
      {
        assert LiveRack(t, k);
      }
    }
    assert CentersDistinct(t') by {
      forall x, y | LiveCenter(t', x) && LiveCenter(t', y) && t'.centers[x].code == t'.centers[y].code
        ensures x == y
      {
        assert x != c ==> LiveCenter(t, x);
        assert y != c ==> LiveCenter(t, y);
      }
    }
    SameRooms(t, t');
    SameRacks(t, t');
  }

  lemma SameRooms(t: Tree, t': Tree)
    requires RoomsDistinct(t) && t'.rooms == t.rooms
    ensures RoomsDistinct(t')
  {
    forall r, s, c | RoomIn(t', r, c) && RoomIn(t', s, c) && t'.rooms[r].code == t'.rooms[s].code
      ensures r == s
    {
      assert RoomIn(t, r, c) && RoomIn(t, s, c);
    }
  }

  lemma SameRacks(t: Tree, t': Tree)
    requires RacksDistinct(t) && t'.racks == t.racks
    ensures RacksDistinct(t')
  {
    forall k, l, r | RackIn(t', k, r) && RackIn(t', l, r) && t'.racks[k].code == t'.racks[l].code
      ensures k == l
    {
      assert RackIn(t, k, r) && RackIn(t, l, r);
    }
  }

  lemma SameCenters(t: Tree, t': Tree)
    requires CentersDistinct(t) && t'.centers == t.centers
    ensures CentersDistinct(t')
  {
    forall x, y | LiveCenter(t', x) && LiveCenter(t', y) && t'.centers[x].code == t'.centers[y].code
      ensures x == y
    {
      assert LiveCenter(t, x) && LiveCenter(t, y);
    }
  }

  lemma PutRoomDistinct(t: Tree, r: Id, row: Room)
    requires RoomsDistinct(t) && (row.deleted || !RoomCodeTaken(t, row.center, row.code, Some(r)))
    ensures RoomsDistinct(t.(rooms := t.rooms[r := row]))
  {
    var t' := t.(rooms := t.rooms[r := row]);
    forall x, y, c | RoomIn(t', x, c) && RoomIn(t', y, c) && t'.rooms[x].code == t'.rooms[y].code
      ensures x == y
    {
      assert x != r ==> RoomIn(t, x, c);
      assert y != r ==> RoomIn(t, y, c);
    }
  }

  /** A room may change or go as long as no rack is left behind. */
  lemma PutRoom(t: Tree, r: Id, row: Room)
    requires WellFormed(t)
    requires row.deleted || (LiveCenter(t, row.center) && !RoomCodeTaken(t, row.center, row.code, Some(r)))
    requires forall k :: RackIn(t, k, r) ==> !row.deleted && t.racks[k].center == row.center
    ensures WellFormed(t.(rooms := t.rooms[r := row]))
  {
    var t' := t.(rooms := t.rooms[r := row]);
    assert ParentsLive(t') by {
      forall x | LiveRoom(t', x)
        ensures LiveCenter(t', t'.rooms[x].center)
      {
        assert x != r ==> LiveRoom(t, x);
        assert LiveCenter(t, t'.rooms[x].center);
      }
      forall k | LiveRack(t', k)
        ensures LiveRoom(t', t'.racks[k].room) && t'.racks[k].center == t'.rooms[t'.racks[k].room].center
      {
        assert LiveRack(t, k) && RackIn(t, k, t.racks[k].room);
      }
    }
    SameCenters(t, t');
    PutRoomDistinct(t, r, row);
    SameRacks(t, t');
  }

  lemma PutRack(t: Tree, k: Id, row: Rack)
    requires WellFormed(t)
    requires row.deleted
             || (LiveRoom(t, row.room) && row.center == t.rooms[row.room].center
                 && !RackCodeTaken(t, row.room, row.code, Some(k)))
    ensures WellFormed(t.(racks := t.racks[k := row]))
  {
    var t' := t.(racks := t.racks[k := row]);
    assert ParentsLive(t') by {
      forall x | LiveRoom(t', x)
        ensures LiveCenter(t', t'.rooms[x].center)
      {
        assert LiveRoom(t, x);
      }
      forall l | LiveRack(t', l)
        ensures LiveRoom(t', t'.racks[l].room) && t'.racks[l].center == t'.rooms[t'.racks[l].room].center
      {
        assert l != k ==> LiveRack(t, l);
        assert LiveRoom(t, t'.racks[l].room);
      }
    }
    SameCenters(t, t');
    SameRooms(t, t');
    forall x, y, r | RackIn(t', x, r) && RackIn(t', y, r) && t'.racks[x].code == t'.racks[y].code
      ensures x == y
    {
      assert x != k ==> RackIn(t, x, r);
      assert y != k ==> RackIn(t, y, r);
    }
  }

  // ----- many rows at a time -----

  /** Rows that are copied into empty parents keep everything well-formed. */
  lemma AddRacks(t: Tree, rooms: set<Id>, home: map<Id, Id>, center: Id, mint: map<Id, Id>)
    requires WellFormed(t) && Mints(t.racks.Keys, mint) && rooms <= home.Keys
    requires forall r :: r in rooms ==> LiveRoom(t, home[r]) && t.rooms[home[r]].center == center
    requires forall r, k :: r in rooms ==> !RackIn(t, k, home[r])
    requires forall r, s :: r in rooms && s in rooms && home[r] == home[s] ==> r == s
    ensures WellFormed(t.(racks := t.racks + RackCopies(t, rooms, home, center, mint)))
  {
    var t' := t.(racks := t.racks + RackCopies(t, rooms, home, center, mint));
    assert ParentsLive(t') by {
      forall x | LiveRoom(t', x)
        ensures LiveCenter(t', t'.rooms[x].center)
      {
        assert LiveRoom(t, x);
      }
      forall x | LiveRack(t', x)
        ensures LiveRoom(t', t'.racks[x].room) && t'.racks[x].center == t'.rooms[t'.racks[x].room].center
      {
        var k := RackOrigin(t, rooms, home, center, mint, x);
        assert LiveRoom(t, t'.racks[x].room);
      }
    }
    SameCenters(t, t');
    SameRooms(t, t');
    forall x, y, r | RackIn(t', x, r) && RackIn(t', y, r) && t'.racks[x].code == t'.racks[y].code
      ensures x == y
    {
      var k := RackOrigin(t, rooms, home, center, mint, x);
      var l := RackOrigin(t, rooms, home, center, mint, y);
      if x in t.racks {
        assert RackIn(t, x, r) && RackIn(t, y, r);
      } else {
        assert home[t.racks[k].room] == r;
        assert y !in t.racks || !RackIn(t, y, r);
        assert RackIn(t, k, t.racks[k].room) && RackIn(t, l, t.racks[k].room);
      }
    }
  }

  /** The rack itself, or the one that it copies. */
  lemma RackOrigin(t: Tree, rooms: set<Id>, home: map<Id, Id>, center: Id, mint: map<Id, Id>, x: Id) returns (k: Id)
    requires Mints(t.racks.Keys, mint) && rooms <= home.Keys && x in t.racks + RackCopies(t, rooms, home, center, mint)
    ensures k in t.racks
    ensures var row := (t.racks + RackCopies(t, rooms, home, center, mint))[x];
            if x in t.racks then k == x && row == t.racks[x]
            else LiveRack(t, k) && t.racks[k].room in rooms && x == mint[k]
                 && row == RackCopy(t.racks[k], home[t.racks[k].room], center)
  {
    var copies := RackCopies(t, rooms, home, center, mint);
    if x in copies {
      k :| k in t.racks && LiveRack(t, k) && t.racks[k].room in rooms && mint[k] == x;
    } else {
      k := x;
    }
  }

  lemma RoomOrigin(t: Tree, source: Id, center: Id, mint: map<Id, Id>, x: Id) returns (m: Id)
    requires Mints(t.rooms.Keys, mint) && x in t.rooms + RoomCopies(t, source, center, mint)
    ensures m in t.rooms
    ensures var row := (t.rooms + RoomCopies(t, source, center, mint))[x];
            if x in t.rooms then m == x && row == t.rooms[x]
            else RoomIn(t, m, source) && x == mint[m] && row == RoomCopy(t.rooms[m], center)
  {
    var copies := RoomCopies(t, source, center, mint);
    if x in copies {
      m :| m in t.rooms && RoomIn(t, m, source) && mint[m] == x;
    } else {
      m := x;
    }
  }

  lemma AddRooms(t: Tree, source: Id, center: Id, mint: map<Id, Id>)
    requires WellFormed(t) && Mints(t.rooms.Keys, mint) && LiveCenter(t, center)
    requires forall r :: !RoomIn(t, r, center)
    ensures WellFormed(t.(rooms := t.rooms + RoomCopies(t, source, center, mint)))
    ensures forall m | RoomIn(t, m, source) :: mint[m] in RoomCopies(t, source, center, mint)
    ensures forall x, k | x in RoomCopies(t, source, center, mint) :: !RackIn(t, k, x)
  {
    var t' := t.(rooms := t.rooms + RoomCopies(t, source, center, mint));
    assert ParentsLive(t') by {
      forall x | LiveRoom(t', x)
        ensures LiveCenter(t', t'.rooms[x].center)
      {
        var m := RoomOrigin(t, source, center, mint, x);
        assert LiveRoom(t, m);
      }
      forall k | LiveRack(t', k)
        ensures LiveRoom(t', t'.racks[k].room) && t'.racks[k].center == t'.rooms[t'.racks[k].room].center
      {
        assert LiveRack(t, k) && LiveRoom(t, t.racks[k].room);
        var m := RoomOrigin(t, source, center, mint, t.racks[k].room);
      }
    }
    SameCenters(t, t');
    forall x, y, c | RoomIn(t', x, c) && RoomIn(t', y, c) && t'.rooms[x].code == t'.rooms[y].code
      ensures x == y
    {
      var m := RoomOrigin(t, source, center, mint, x);
      var n := RoomOrigin(t, source, center, mint, y);
      if x in t.rooms {
        assert RoomIn(t, x, c) && RoomIn(t, y, c);
      } else {
        assert c == center && (y !in t.rooms || !RoomIn(t, y, c));
        assert RoomIn(t, m, source) && RoomIn(t, n, source);
      }
    }
    SameRacks(t, t');
    forall x, k | x in RoomCopies(t, source, center, mint)
      ensures !RackIn(t, k, x)
    {
      var m := RoomOrigin(t, source, center, mint, x);
      assert LiveRack(t, k) ==> LiveRoom(t, t.racks[k].room);
    }
  }

  // ----- every request -----

  lemma NoRoomsYet(t: Tree, id: Id, row: Center)
    requires WellFormed(t) && id !in t.centers
    ensures var t1 := t.(centers := t.centers[id := row]); forall m :: !RoomIn(t1, m, id)
  {
    forall m | LiveRoom(t, m)
      ensures t.rooms[m].center != id
    {
      assert LiveCenter(t, t.rooms[m].center);
    }
  }

  lemma CopiedRoomsEmpty(t: Tree, t1: Tree, source: Id, id: Id, mint: map<Id, Id>)
    requires Mints(t.rooms.Keys, mint)
    requires t1.rooms == t.rooms + RoomCopies(t, source, id, mint) && t1.racks == t.racks
    requires forall x, k | x in RoomCopies(t, source, id, mint) :: !RackIn(t, k, x)
    ensures forall m | m in RoomsOf(t, source) ::
              LiveRoom(t1, mint[m]) && t1.rooms[mint[m]].center == id && forall k :: !RackIn(t1, k, mint[m])
  {
    forall m | m in RoomsOf(t, source)
      ensures LiveRoom(t1, mint[m]) && t1.rooms[mint[m]].center == id && forall k :: !RackIn(t1, k, mint[m])
    {
      assert mint[m] in RoomCopies(t, source, id, mint);
      assert forall k :: RackIn(t1, k, mint[m]) ==> RackIn(t, k, mint[m]);
    }
  }

  lemma SameRackCopies(t: Tree, t': Tree, rooms: set<Id>, home: map<Id, Id>, center: Id, mint: map<Id, Id>)
    requires t.racks == t'.racks && Mints(t.racks.Keys, mint) && rooms <= home.Keys
    ensures RackCopies(t, rooms, home, center, mint) == RackCopies(t', rooms, home, center, mint)
  {
  }

  lemma SameRoomCopies(t: Tree, t': Tree, source: Id, center: Id, mint: map<Id, Id>)
    requires t.rooms == t'.rooms && Mints(t.rooms.Keys, mint)
    ensures RoomCopies(t, source, center, mint) == RoomCopies(t', source, center, mint)
    ensures RoomsOf(t, source) == RoomsOf(t', source)
  {
  }

  lemma CenterCopyKeeps(t: Tree, source: Id, row: Center, id: Id, mint: map<Id, Id>)
    requires WellFormed(t) && id !in t.centers && !row.deleted && !CenterCodeTaken(t, row.code, None)
    requires Mints(t.rooms.Keys, mint) && Mints(t.racks.Keys, mint)
    ensures WellFormed(WithCenterCopy(t, source, row, id, mint))
  {
    var t1 := t.(centers := t.centers[id := row]);
    NoRoomsYet(t, id, row);
    PutCenter(t, id, row);
    AddRooms(t1, source, id, mint);
    var t2 := t1.(rooms := t1.rooms + RoomCopies(t1, source, id, mint));
    CopiedRoomsEmpty(t1, t2, source, id, mint);
    SameRoomCopies(t, t1, source, id, mint);
    var rooms := RoomsOf(t, source);
    assert forall m, n | m in rooms && n in rooms && mint[m] == mint[n] :: m == n;
    hide WellFormed, RoomsOf, RoomCopies, RackCopies;
    AddRacks(t2, rooms, mint, id, mint);
    SameRackCopies(t2, t, rooms, mint, id, mint);
    assert WithCenterCopy(t, source, row, id, mint) == t2.(racks := t2.racks + RackCopies(t2, rooms, mint, id, mint));
  }

  lemma RoomCopyKeeps(t: Tree, source: Id, row: Room, id: Id, mint: map<Id, Id>)
    requires WellFormed(t) && id !in t.rooms && !row.deleted && LiveCenter(t, row.center)
    requires !RoomCodeTaken(t, row.center, row.code, None) && Mints(t.racks.Keys, mint)
    ensures WellFormed(WithRoomCopy(t, source, row, id, mint))
  {
    forall k | LiveRack(t, k)
      ensures t.racks[k].room != id
    {
      assert LiveRoom(t, t.racks[k].room);
    }
    PutRoom(t, id, row);
    var t1, home := t.(rooms := t.rooms[id := row]), map[source := id];
    assert forall k :: RackIn(t1, k, id) ==> LiveRack(t, k);
    hide WellFormed, RackCopies;
    AddRacks(t1, {source}, home, row.center, mint);
    SameRackCopies(t1, t, {source}, home, row.center, mint);
  }

  lemma ShiftRoomKeeps(t: Tree, r: Request)
    requires WellFormed(t) && r.MoveRoom? && ShiftRoom(t, r).Done?
    ensures WellFormed(ShiftRoom(t, r).tree)
  {
    var t' := ShiftRoom(t, r).tree;
    assert ParentsLive(t') by {
      forall x | LiveRoom(t', x)
        ensures LiveCenter(t', t'.rooms[x].center)
      {
        assert LiveRoom(t, x);
      }
      forall k | LiveRack(t', k)
        ensures LiveRoom(t', t'.racks[k].room) && t'.racks[k].center == t'.rooms[t'.racks[k].room].center
      {
        assert LiveRack(t, k) && LiveRoom(t, t.racks[k].room);
      }
    }
    SameCenters(t, t');
    PutRoomDistinct(t, r.id, t'.rooms[r.id]);
    SameRooms(t.(rooms := t'.rooms), t');
    forall k, l, m | RackIn(t', k, m) && RackIn(t', l, m) && t'.racks[k].code == t'.racks[l].code
      ensures k == l
    {
      assert RackIn(t, k, m) && RackIn(t, l, m);
    }
  }

  lemma CenterRowKeeps(t: Tree, r: Request)
    requires WellFormed(t) && Fresh(t, r) && Apply(t, r).Done?
    requires r.CreateCenter? || r.UpdateCenter? || r.DeleteCenter?
    ensures WellFormed(Apply(t, r).tree)
  {
    hide DupCenter, DupRoom, DupRack, ShiftRoom, ShiftRack, ParentsLive, CentersDistinct, RoomsDistinct, RacksDistinct;
    PutCenter(t, r.id, Apply(t, r).tree.centers[r.id]);
  }

  lemma RoomRowKeeps(t: Tree, r: Request)
    requires WellFormed(t) && Fresh(t, r) && Apply(t, r).Done? && (r.CreateRoom? || r.UpdateRoom? || r.DeleteRoom?)
    ensures WellFormed(Apply(t, r).tree)
  {
    hide DupCenter, DupRoom, DupRack, ShiftRoom, ShiftRack, CentersDistinct, RoomsDistinct, RacksDistinct;
    RacksOfRoom(t, r.id);
    assert LiveRoom(t, r.id) ==> LiveCenter(t, t.rooms[r.id].center);
    hide ParentsLive;
    PutRoom(t, r.id, Apply(t, r).tree.rooms[r.id]);
  }

  lemma RackRowKeeps(t: Tree, r: Request)
    requires WellFormed(t) && Fresh(t, r) && Apply(t, r).Done?
    requires r.CreateRack? || r.UpdateRack? || r.DeleteRack? || r.CopyRack? || r.MoveRack?
    ensures WellFormed(Apply(t, r).tree)
  {
    hide DupCenter, DupRoom, ShiftRoom, CentersDistinct, RoomsDistinct, RacksDistinct;
    assert LiveRack(t, r.id) ==> t.racks[r.id].center == t.rooms[t.racks[r.id].room].center;
    hide ParentsLive;
    PutRack(t, r.id, Apply(t, r).tree.racks[r.id]);
  }

  lemma RacksOfRoom(t: Tree, m: Id)
    requires WellFormed(t)
    ensures forall k | RackIn(t, k, m) :: LiveRoom(t, m) && t.racks[k].center == t.rooms[m].center
  {
  }

  lemma CopyCenterKeeps(t: Tree, r: Request)
    requires WellFormed(t) && r.CopyCenter? && Fresh(t, r) && DupCenter(t, r).Done?
    ensures WellFormed(DupCenter(t, r).tree)
  {
    hide WellFormed, WithCenterCopy, Mints;
    CenterCopyKeeps(t, r.source, CenterCopy(t.centers[r.source], r.code, r.name), r.id, r.mint);
  }

  lemma CopyRoomKeeps(t: Tree, r: Request)
    requires WellFormed(t) && r.CopyRoom? && Fresh(t, r) && DupRoom(t, r).Done?
    ensures WellFormed(DupRoom(t, r).tree)
  {
    hide WellFormed, WithRoomCopy, Mints;
    var target := TargetOr(r.target, t.rooms[r.source].center);
    RoomCopyKeeps(t, r.source, RoomCopy(t.rooms[r.source], target).(code := r.code, name := r.name), r.id, r.mint);
  }

  /** Every request keeps parents live, racks' data centres right and codes distinct. */
  lemma ApplyKeepsWellFormed(t: Tree, r: Request)
    requires WellFormed(t) && Fresh(t, r) && Apply(t, r).Done?
    ensures WellFormed(Apply(t, r).tree)
  {
    hide WellFormed, NewCenter, EditCenter, EraseCenter, NewRoom, EditRoom, EraseRoom, NewRack, EditRack, EraseRack;
    hide DupCenter, DupRoom, DupRack, ShiftRoom, ShiftRack;
    match r
    case CopyCenter(_, _, _, _, _, _) => CopyCenterKeeps(t, r);
    case CopyRoom(_, _, _, _, _, _, _) => CopyRoomKeeps(t, r);
    case MoveRoom(_, _, _, _, _) => ShiftRoomKeeps(t, r);
    case _ =>
      if r.CreateCenter? || r.UpdateCenter? || r.DeleteCenter? {
        CenterRowKeeps(t, r);
      } else if r.CreateRoom? || r.UpdateRoom? || r.DeleteRoom? {
        RoomRowKeeps(t, r);
      } else {
        RackRowKeeps(t, r);
      }
  }

  ghost predicate Run(trees: seq<Tree>, requests: seq<Request>) {
    && |trees| == |requests| + 1
    && trees[0] == EMPTY_TREE
    && forall i :: 0 <= i < |requests| ==> Fresh(trees[i], requests[i]) && After(trees[i], requests[i]) == trees[i + 1]
  }

  /** A request that fails changes nothing. */
  ghost function After(t: Tree, r: Request): Tree
    requires Fresh(t, r)
  {
    if Apply(t, r).Done? then Apply(t, r).tree else t
  }

  /** The hierarchy is well-formed in every run. */
  lemma {:induction false} AlwaysWellFormed(trees: seq<Tree>, requests: seq<Request>, i: nat)
    requires Run(trees, requests) && i < |trees|
    ensures WellFormed(trees[i])
  {
    hide Apply, Fresh;
    if i > 0 {
      AlwaysWellFormed(trees, requests, i - 1);
      assert After(trees[i - 1], requests[i - 1]) == trees[i - 1 + 1];
      hide WellFormed;
      if Apply(trees[i - 1], requests[i - 1]).Done? {
        ApplyKeepsWellFormed(trees[i - 1], requests[i - 1]);
      }
    }
  }
}
