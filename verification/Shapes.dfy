// The content of a room or data centre without identifiers: what copies repeat and moves carry.

module Shapes {
  import opened Wrappers
  import opened Hierarchy
  import opened HierarchyProofs

  datatype RackShape = RackShape(name: string, attrs: string)

  /** The racks of a room by their codes. */
  datatype RoomShape = RoomShape(name: string, status: string, attrs: string, racks: map<string, RackShape>)

  /** The rooms of a data centre by their codes. */
  datatype CenterShape = CenterShape(name: string, status: string, attrs: string, rooms: map<string, RoomShape>)

  ghost function RackShapeOf(rack: Rack): RackShape {
    RackShape(rack.name, rack.attrs)
  }

  ghost function RacksOf(t: Tree, m: Id): map<string, RackShape>
    requires RacksDistinct(t)
  {
    map k | k in t.racks && RackIn(t, k, m) :: t.racks[k].code := RackShapeOf(t.racks[k])
  }

  ghost function RoomShapeOf(t: Tree, m: Id): RoomShape
    requires RacksDistinct(t) && m in t.rooms
  {
    RoomShape(t.rooms[m].name, t.rooms[m].status, t.rooms[m].attrs, RacksOf(t, m))
  }

  ghost function RoomShapesOf(t: Tree, c: Id): map<string, RoomShape>
    requires RacksDistinct(t) && RoomsDistinct(t)
  {
    map m | m in t.rooms && RoomIn(t, m, c) :: t.rooms[m].code := RoomShapeOf(t, m)
  }

  ghost function ShapeOf(t: Tree, c: Id): CenterShape
    requires RacksDistinct(t) && RoomsDistinct(t) && c in t.centers
  {
    CenterShape(t.centers[c].name, t.centers[c].status, t.centers[c].attrs, RoomShapesOf(t, c))
  }

  // ----- when rooms and data centres look the same -----

  /** `f` takes the racks of room `m` in `t` to the racks of room `n` in `u`. */
  ghost predicate RacksMatch(t: Tree, m: Id, u: Tree, n: Id) {
    && (forall k :: RackIn(t, k, m) ==> exists l :: RackIn(u, l, n) && u.racks[l].code == t.racks[k].code)
    && (forall k, l :: RackIn(t, k, m) && RackIn(u, l, n) && u.racks[l].code == t.racks[k].code ==>
                         RackShapeOf(t.racks[k]) == RackShapeOf(u.racks[l]))
    && (forall l :: RackIn(u, l, n) ==> exists k :: RackIn(t, k, m) && u.racks[l].code == t.racks[k].code)
  }

  lemma MatchingRacks(t: Tree, m: Id, u: Tree, n: Id)
    requires RacksDistinct(t) && RacksDistinct(u) && RacksMatch(t, m, u, n)
    ensures RacksOf(t, m) == RacksOf(u, n)
  {
    forall code
      ensures code in RacksOf(t, m) <==> code in RacksOf(u, n)
      ensures code in RacksOf(t, m) ==> RacksOf(t, m)[code] == RacksOf(u, n)[code]
    {
    }
  }

  /** A room whose racks are the same rows, up to their data centre, keeps its racks' shape. */
  lemma SameRacksOf(t: Tree, u: Tree, m: Id)
    requires RacksDistinct(t) && RacksDistinct(u)
    requires forall k :: RackIn(t, k, m) <==> RackIn(u, k, m)
    requires forall k :: RackIn(t, k, m) ==> u.racks[k].(center := 0) == t.racks[k].(center := 0)
    ensures RacksOf(t, m) == RacksOf(u, m)
  {
    forall k | RackIn(t, k, m)
      ensures RackShapeOf(t.racks[k]) == RackShapeOf(u.racks[k]) && t.racks[k].code == u.racks[k].code
    {
      assert u.racks[k].(center := 0).code == t.racks[k].(center := 0).code;
      assert u.racks[k].(center := 0).name == t.racks[k].(center := 0).name;
    }
    forall k, l | RackIn(t, k, m) && RackIn(u, l, m) && u.racks[l].code == t.racks[k].code
      ensures k == l
    {
      assert RackIn(t, l, m);
    }
    MatchingRacks(t, m, u, m);
  }

  /** Each room of `c` in `t` has one of the same code and shape in `d` in `u`, and the other way round. */
  ghost predicate RoomsMatch(t: Tree, c: Id, u: Tree, d: Id)
    requires RacksDistinct(t) && RacksDistinct(u)
  {
    && (forall m :: RoomIn(t, m, c) ==> exists n :: RoomIn(u, n, d) && u.rooms[n].code == t.rooms[m].code)
    && (forall m, n :: RoomIn(t, m, c) && RoomIn(u, n, d) && u.rooms[n].code == t.rooms[m].code ==>
                         RoomShapeOf(t, m) == RoomShapeOf(u, n))
    && (forall n :: RoomIn(u, n, d) ==> exists m :: RoomIn(t, m, c) && u.rooms[n].code == t.rooms[m].code)
  }

  lemma MatchingRooms(t: Tree, c: Id, u: Tree, d: Id)
    requires RacksDistinct(t) && RacksDistinct(u) && RoomsDistinct(t) && RoomsDistinct(u) && RoomsMatch(t, c, u, d)
    ensures RoomShapesOf(t, c) == RoomShapesOf(u, d)
  {
    hide RoomShapeOf;
    forall code
      ensures code in RoomShapesOf(t, c) <==> code in RoomShapesOf(u, d)
      ensures code in RoomShapesOf(t, c) ==> RoomShapesOf(t, c)[code] == RoomShapesOf(u, d)[code]
    {
    }
  }

  /** A renaming of the rooms of `c` in `t` onto those of `d` in `u` that keeps codes and shapes. */
  lemma MappedRooms(t: Tree, c: Id, u: Tree, d: Id, name: map<Id, Id>)
    requires RacksDistinct(t) && RacksDistinct(u) && RoomsDistinct(t) && RoomsDistinct(u)
    requires forall m | RoomIn(t, m, c) ::
               && m in name && RoomIn(u, name[m], d) && u.rooms[name[m]].code == t.rooms[m].code
               && RoomShapeOf(u, name[m]) == RoomShapeOf(t, m)
    requires forall n | RoomIn(u, n, d) :: exists m :: RoomIn(t, m, c) && m in name && name[m] == n
    ensures RoomShapesOf(t, c) == RoomShapesOf(u, d)
  {
    hide RoomShapeOf;
    forall m, n | RoomIn(t, m, c) && RoomIn(u, n, d) && u.rooms[n].code == t.rooms[m].code
      ensures RoomShapeOf(t, m) == RoomShapeOf(u, n)
    {
      assert RoomIn(u, name[m], d);
    }
    MatchingRooms(t, c, u, d);
  }

  // ----- copied racks -----

  /** `t'` has the racks of `t` and copies of those of `rooms` in rooms that had none. */
  ghost predicate RacksCopied(t: Tree, t': Tree, rooms: set<Id>, home: map<Id, Id>, center: Id, mint: map<Id, Id>) {
    && Mints(t.racks.Keys, mint) && rooms <= home.Keys
    && t'.racks == t.racks + RackCopies(t, rooms, home, center, mint)
    && (forall m, k :: m in rooms ==> !RackIn(t, k, home[m]))
    && (forall m, n :: m in rooms && n in rooms && home[m] == home[n] ==> m == n)
  }

  lemma CopyHas(t: Tree, t': Tree, rooms: set<Id>, home: map<Id, Id>, center: Id, mint: map<Id, Id>, m: Id, k: Id)
    requires RacksCopied(t, t', rooms, home, center, mint) && m in rooms && RackIn(t, k, m)
    ensures RackIn(t', mint[k], home[m]) && t'.racks[mint[k]] == RackCopy(t.racks[k], home[m], center)
  {
    assert mint[k] in RackCopies(t, rooms, home, center, mint);
    var l := RackOrigin(t, rooms, home, center, mint, mint[k]);
  }

  lemma CopyFrom(t: Tree, t': Tree, rooms: set<Id>, home: map<Id, Id>, center: Id, mint: map<Id, Id>, m: Id, l: Id)
    returns (k: Id)
    requires RacksCopied(t, t', rooms, home, center, mint) && m in rooms && RackIn(t', l, home[m])
    ensures RackIn(t, k, m) && t'.racks[l] == RackCopy(t.racks[k], home[m], center)
  {
    k := RackOrigin(t, rooms, home, center, mint, l);
    assert !RackIn(t, l, home[m]);
  }

  lemma CopiedRacks(t: Tree, t': Tree, rooms: set<Id>, home: map<Id, Id>, center: Id, mint: map<Id, Id>, m: Id)
    requires RacksDistinct(t) && RacksDistinct(t') && RacksCopied(t, t', rooms, home, center, mint) && m in rooms
    ensures RacksOf(t, m) == RacksOf(t', home[m])
  {
    assert RacksMatch(t, m, t', home[m]) by {
      forall k | RackIn(t, k, m)
        ensures exists l :: RackIn(t', l, home[m]) && t'.racks[l].code == t.racks[k].code
      {
        CopyHas(t, t', rooms, home, center, mint, m, k);
      }
      forall l | RackIn(t', l, home[m])
        ensures exists k :: RackIn(t, k, m) && t'.racks[l].code == t.racks[k].code
      {
        var k := CopyFrom(t, t', rooms, home, center, mint, m, l);
      }
      forall k, l | RackIn(t, k, m) && RackIn(t', l, home[m]) && t'.racks[l].code == t.racks[k].code
        ensures RackShapeOf(t.racks[k]) == RackShapeOf(t'.racks[l])
      {
        var j := CopyFrom(t, t', rooms, home, center, mint, m, l);
        assert j == k;
      }
    }
    MatchingRacks(t, m, t', home[m]);
  }

  /** Rooms that are no copies keep their racks. */
  lemma OtherRacks(t: Tree, t': Tree, rooms: set<Id>, home: map<Id, Id>, center: Id, mint: map<Id, Id>, n: Id)
    requires RacksDistinct(t) && RacksDistinct(t') && RacksCopied(t, t', rooms, home, center, mint)
    requires forall m :: m in rooms ==> home[m] != n
    ensures RacksOf(t, n) == RacksOf(t', n)
  {
    forall k
      ensures RackIn(t, k, n) <==> RackIn(t', k, n)
      ensures RackIn(t, k, n) ==> t'.racks[k] == t.racks[k]
    {
      if k in t'.racks {
        var l := RackOrigin(t, rooms, home, center, mint, k);
      }
    }
    SameRacksOf(t, t', n);
  }

  // ----- copying a data centre -----

  lemma CenterCopyRacks(t: Tree, source: Id, row: Center, id: Id, mint: map<Id, Id>)
    requires WellFormed(t) && Mints(t.rooms.Keys, mint) && Mints(t.racks.Keys, mint)
    ensures RacksCopied(t, WithCenterCopy(t, source, row, id, mint), RoomsOf(t, source), mint, id, mint)
  {
    forall m, k | m in RoomsOf(t, source)
      ensures !RackIn(t, k, mint[m])
    {
      assert LiveRack(t, k) ==> LiveRoom(t, t.racks[k].room);
    }
  }

  lemma CopiedRoom(t: Tree, source: Id, row: Center, id: Id, mint: map<Id, Id>, m: Id)
    requires WellFormed(t) && Mints(t.rooms.Keys, mint) && Mints(t.racks.Keys, mint) && RoomIn(t, m, source)
    requires WellFormed(WithCenterCopy(t, source, row, id, mint))
    ensures var t' := WithCenterCopy(t, source, row, id, mint);
            RoomIn(t', mint[m], id) && t'.rooms[mint[m]].code == t.rooms[m].code
            && RoomShapeOf(t', mint[m]) == RoomShapeOf(t, m)
  {
    CenterCopyRacks(t, source, row, id, mint);
    assert mint[m] in RoomCopies(t, source, id, mint);
    var o := RoomOrigin(t, source, id, mint, mint[m]);
    hide RacksCopied;
    CopiedRacks(t, WithCenterCopy(t, source, row, id, mint), RoomsOf(t, source), mint, id, mint, m);
  }

  lemma KeptRoom(t: Tree, source: Id, row: Center, id: Id, mint: map<Id, Id>, n: Id)
    requires WellFormed(t) && Mints(t.rooms.Keys, mint) && Mints(t.racks.Keys, mint) && n in t.rooms
    requires WellFormed(WithCenterCopy(t, source, row, id, mint))
    ensures var t' := WithCenterCopy(t, source, row, id, mint);
            n in t'.rooms && t'.rooms[n] == t.rooms[n] && RoomShapeOf(t', n) == RoomShapeOf(t, n)
  {
    CenterCopyRacks(t, source, row, id, mint);
    var o := RoomOrigin(t, source, id, mint, n);
    OtherRacks(t, WithCenterCopy(t, source, row, id, mint), RoomsOf(t, source), mint, id, mint, n);
  }

  lemma CopiedRoomFrom(t: Tree, source: Id, row: Center, id: Id, mint: map<Id, Id>, n: Id) returns (m: Id)
    requires WellFormed(t) && id !in t.centers && Mints(t.rooms.Keys, mint) && Mints(t.racks.Keys, mint)
    requires RoomIn(WithCenterCopy(t, source, row, id, mint), n, id)
    ensures RoomIn(t, m, source) && m in mint && mint[m] == n
  {
    NoRoomsYet(t, id, row);
    m := RoomOrigin(t, source, id, mint, n);
    assert !RoomIn(t.(centers := t.centers[id := row]), n, id);
  }

  lemma CopiedRooms(t: Tree, source: Id, row: Center, id: Id, mint: map<Id, Id>)
    requires WellFormed(t) && id !in t.centers && Mints(t.rooms.Keys, mint) && Mints(t.racks.Keys, mint)
    requires WellFormed(WithCenterCopy(t, source, row, id, mint))
    ensures RoomShapesOf(t, source) == RoomShapesOf(WithCenterCopy(t, source, row, id, mint), id)
  {
    var t' := WithCenterCopy(t, source, row, id, mint);
    assert t.rooms.Keys <= mint.Keys;
    hide WithCenterCopy, RoomShapeOf, Mints, RoomsDistinct, RacksDistinct, ParentsLive, CentersDistinct;
    forall m | RoomIn(t, m, source)
      ensures m in mint && RoomIn(t', mint[m], id) && t'.rooms[mint[m]].code == t.rooms[m].code
      ensures RoomShapeOf(t', mint[m]) == RoomShapeOf(t, m)
    {
      CopiedRoom(t, source, row, id, mint, m);
    }
    forall n | RoomIn(t', n, id)
      ensures exists m :: RoomIn(t, m, source) && m in mint && mint[m] == n
    {
      var m := CopiedRoomFrom(t, source, row, id, mint, n);
    }
    MappedRooms(t, source, t', id, mint);
  }

  lemma KeptRooms(t: Tree, source: Id, row: Center, id: Id, mint: map<Id, Id>, c: Id)
    requires WellFormed(t) && Mints(t.rooms.Keys, mint) && Mints(t.racks.Keys, mint) && c != id
    requires WellFormed(WithCenterCopy(t, source, row, id, mint))
    ensures RoomShapesOf(t, c) == RoomShapesOf(WithCenterCopy(t, source, row, id, mint), c)
  {
    var t' := WithCenterCopy(t, source, row, id, mint);
    forall n | RoomIn(t', n, c)
      ensures RoomIn(t, n, c)
    {
      var m := RoomOrigin(t, source, id, mint, n);
    }
    hide WithCenterCopy, RoomShapeOf, Mints, RoomsDistinct, RacksDistinct, ParentsLive, CentersDistinct;
    forall m | m in t.rooms
      ensures m in t'.rooms && t'.rooms[m] == t.rooms[m] && RoomShapeOf(t', m) == RoomShapeOf(t, m)
    {
      KeptRoom(t, source, row, id, mint, m);
    }
    MappedRooms(t, c, t', c, map m | m in t.rooms :: m);
  }

  lemma KeptRack(t: Tree, source: Id, row: Center, id: Id, mint: map<Id, Id>, k: Id)
    requires Mints(t.rooms.Keys, mint) && Mints(t.racks.Keys, mint) && k in t.racks
    ensures k in WithCenterCopy(t, source, row, id, mint).racks
    ensures WithCenterCopy(t, source, row, id, mint).racks[k] == t.racks[k]
  {
    var l := RackOrigin(t, RoomsOf(t, source), mint, id, mint, k);
  }

  /** Every row that was there before is there unchanged. */
  ghost predicate RowsKept(t: Tree, t': Tree) {
    && (forall c :: c in t.centers ==> c in t'.centers && t'.centers[c] == t.centers[c])
    && (forall m :: m in t.rooms ==> m in t'.rooms && t'.rooms[m] == t.rooms[m])
    && (forall k :: k in t.racks ==> k in t'.racks && t'.racks[k] == t.racks[k])
  }

  lemma CenterCopyKeepsRows(t: Tree, source: Id, row: Center, id: Id, mint: map<Id, Id>)
    requires id !in t.centers && Mints(t.rooms.Keys, mint) && Mints(t.racks.Keys, mint)
    ensures RowsKept(t, WithCenterCopy(t, source, row, id, mint))
  {
    hide Mints, RoomCopies, RackCopies, RoomsOf;
    forall m | m in t.rooms
      ensures m in WithCenterCopy(t, source, row, id, mint).rooms
      ensures WithCenterCopy(t, source, row, id, mint).rooms[m] == t.rooms[m]
    {
      var o := RoomOrigin(t, source, id, mint, m);
    }
    forall k | k in t.racks
      ensures k in WithCenterCopy(t, source, row, id, mint).racks
      ensures WithCenterCopy(t, source, row, id, mint).racks[k] == t.racks[k]
    {
      KeptRack(t, source, row, id, mint, k);
    }
  }

  lemma CenterCopyShapes(t: Tree, source: Id, row: Center, id: Id, mint: map<Id, Id>, c: Id)
    requires WellFormed(t) && id !in t.centers && Mints(t.rooms.Keys, mint) && Mints(t.racks.Keys, mint)
    requires WellFormed(WithCenterCopy(t, source, row, id, mint)) && source in t.centers && c in t.centers
    ensures var t' := WithCenterCopy(t, source, row, id, mint);
            && ShapeOf(t', c) == ShapeOf(t, c)
            && ShapeOf(t', id) == CenterShape(row.name, row.status, row.attrs, ShapeOf(t, source).rooms)
  {
    CopiedRooms(t, source, row, id, mint);
    KeptRooms(t, source, row, id, mint, c);
    hide RoomShapesOf, RoomCopies, RackCopies, Mints;
  }

  lemma CopyFields(t: Tree, r: Request, t': Tree)
    requires r.CopyCenter? && Fresh(t, r) && DupCenter(t, r) == Done(t')
    ensures r.source in t.centers && r.id !in t.centers && Mints(t.rooms.Keys, r.mint) && Mints(t.racks.Keys, r.mint)
    ensures t' == WithCenterCopy(t, r.source, CenterCopy(t.centers[r.source], r.code, r.name), r.id, r.mint)
    ensures LiveCenter(t', r.id) && t'.centers[r.id].code == r.code
  {
    hide Mints, CenterCodeTaken, RoomCopies, RackCopies;
  }

  /** The copy of a data centre has the shape of the source, and no row or other data centre is touched. */
  lemma CopyCenterIsFaithful(t: Tree, r: Request, t': Tree, c: Id)
    requires WellFormed(t) && r.CopyCenter? && Fresh(t, r) && DupCenter(t, r) == Done(t') && c in t.centers
    ensures WellFormed(t') && RowsKept(t, t')
    ensures LiveCenter(t', r.id) && t'.centers[r.id].code == r.code && r.source in t.centers
    ensures ShapeOf(t', r.id) == ShapeOf(t, r.source).(name := r.name)
    ensures c in t'.centers && ShapeOf(t', c) == ShapeOf(t, c)
  {
    CopyCenterKeeps(t, r);
    CopyFields(t, r, t');
    hide Mints, RowsKept, ParentsLive, CentersDistinct, RoomsDistinct, RacksDistinct, CenterCodeTaken, RoomShapesOf;
    hide WithCenterCopy, DupCenter, Fresh;
    var row := CenterCopy(t.centers[r.source], r.code, r.name);
    CenterCopyKeepsRows(t, r.source, row, r.id, r.mint);
    CenterCopyShapes(t, r.source, row, r.id, r.mint, c);
    CenterCopyShapes(t, r.source, row, r.id, r.mint, r.source);
  }

  // ----- one room or rack more or less -----

  lemma OneMore<K, V>(a: map<K, V>, b: map<K, V>, key: K)
    requires key in b && key !in a
    requires forall k | k in a :: k in b && b[k] == a[k]
    requires forall k | k in b :: k in a || k == key
    ensures b == a[key := b[key]]
  {
  }

  lemma ShapeAt(t: Tree, c: Id, m: Id)
    requires RacksDistinct(t) && RoomsDistinct(t) && RoomIn(t, m, c)
    ensures t.rooms[m].code in RoomShapesOf(t, c) && RoomShapesOf(t, c)[t.rooms[m].code] == RoomShapeOf(t, m)
  {
    hide RoomShapeOf;
  }

  lemma ShapeFrom(t: Tree, c: Id, code: string) returns (m: Id)
    requires RacksDistinct(t) && RoomsDistinct(t) && code in RoomShapesOf(t, c)
    ensures RoomIn(t, m, c) && t.rooms[m].code == code && RoomShapesOf(t, c)[code] == RoomShapeOf(t, m)
  {
    m :| m in t.rooms && RoomIn(t, m, c) && t.rooms[m].code == code;
    ShapeAt(t, c, m);
  }

  lemma RoomsApart(t: Tree, c: Id, m: Id, n: Id)
    requires RoomsDistinct(t) && RoomIn(t, m, c) && RoomIn(t, n, c) && m != n
    ensures t.rooms[m].code != t.rooms[n].code
  {
  }

  lemma RacksApart(t: Tree, m: Id, k: Id, l: Id)
    requires RacksDistinct(t) && RackIn(t, k, m) && RackIn(t, l, m) && k != l
    ensures t.racks[k].code != t.racks[l].code
  {
  }

  /** `t'` differs from `t` in data centre `c` by the room `id` alone. */
  ghost predicate OneRoomMore(t: Tree, t': Tree, c: Id, id: Id)
    requires RacksDistinct(t) && RacksDistinct(t')
  {
    && !RoomIn(t, id, c) && RoomIn(t', id, c)
    && (forall m | m != id :: RoomIn(t, m, c) <==> RoomIn(t', m, c))
    && (forall m | RoomIn(t, m, c) :: t'.rooms[m].code == t.rooms[m].code && RoomShapeOf(t', m) == RoomShapeOf(t, m))
  }

  ghost predicate AllDistinct(t: Tree) {
    RacksDistinct(t) && RoomsDistinct(t)
  }

  lemma RoomStays(t: Tree, t': Tree, c: Id, id: Id, code: string)
    requires AllDistinct(t) && AllDistinct(t') && OneRoomMore(t, t', c, id) && code in RoomShapesOf(t, c)
    ensures code in RoomShapesOf(t', c) && RoomShapesOf(t', c)[code] == RoomShapesOf(t, c)[code]
    ensures code != t'.rooms[id].code
  {
    var m := ShapeFrom(t, c, code);
    hide RoomShapesOf, RoomShapeOf, RacksDistinct, RoomsDistinct;
    ShapeAt(t', c, m);
    RoomsApart(t', c, m, id);
  }

  lemma RoomCame(t: Tree, t': Tree, c: Id, id: Id, code: string)
    requires AllDistinct(t) && AllDistinct(t') && OneRoomMore(t, t', c, id) && code in RoomShapesOf(t', c)
    ensures code in RoomShapesOf(t, c) || code == t'.rooms[id].code
  {
    var m := ShapeFrom(t', c, code);
    hide RoomShapesOf, RoomShapeOf, RacksDistinct, RoomsDistinct;
    if m != id {
      ShapeAt(t, c, m);
    }
  }

  lemma RoomAdded(t: Tree, t': Tree, c: Id, id: Id)
    requires AllDistinct(t) && AllDistinct(t') && OneRoomMore(t, t', c, id)
    ensures RoomShapesOf(t', c) == RoomShapesOf(t, c)[t'.rooms[id].code := RoomShapeOf(t', id)]
    ensures t'.rooms[id].code !in RoomShapesOf(t, c)
  {
    ShapeAt(t', c, id);
    hide RoomShapesOf, RoomShapeOf, RacksDistinct, RoomsDistinct;
    forall code | code in RoomShapesOf(t, c)
      ensures code in RoomShapesOf(t', c) && RoomShapesOf(t', c)[code] == RoomShapesOf(t, c)[code]
      ensures code != t'.rooms[id].code
    {
      RoomStays(t, t', c, id, code);
    }
    forall code | code in RoomShapesOf(t', c)
      ensures code in RoomShapesOf(t, c) || code == t'.rooms[id].code
    {
      RoomCame(t, t', c, id, code);
    }
    assert t'.rooms[id].code !in RoomShapesOf(t, c);
    OneMore(RoomShapesOf(t, c), RoomShapesOf(t', c), t'.rooms[id].code);
  }

  lemma RackAt(t: Tree, m: Id, k: Id)
    requires RacksDistinct(t) && RackIn(t, k, m)
    ensures t.racks[k].code in RacksOf(t, m) && RacksOf(t, m)[t.racks[k].code] == RackShapeOf(t.racks[k])
  {
  }

  lemma RackFrom(t: Tree, m: Id, code: string) returns (k: Id)
    requires RacksDistinct(t) && code in RacksOf(t, m)
    ensures RackIn(t, k, m) && t.racks[k].code == code && RacksOf(t, m)[code] == RackShapeOf(t.racks[k])
  {
    k :| k in t.racks && RackIn(t, k, m) && t.racks[k].code == code;
    RackAt(t, m, k);
  }

  /** `t'` differs from `t` in room `m` by the rack `id` alone. */
  ghost predicate OneRackMore(t: Tree, t': Tree, m: Id, id: Id) {
    && !RackIn(t, id, m) && RackIn(t', id, m)
    && (forall k | k != id :: RackIn(t, k, m) <==> RackIn(t', k, m))
    && (forall k | RackIn(t, k, m) :: t'.racks[k] == t.racks[k])
  }

  lemma RackStays(t: Tree, t': Tree, m: Id, id: Id, code: string)
    requires RacksDistinct(t) && RacksDistinct(t') && OneRackMore(t, t', m, id) && code in RacksOf(t, m)
    ensures code in RacksOf(t', m) && RacksOf(t', m)[code] == RacksOf(t, m)[code] && code != t'.racks[id].code
  {
    var k := RackFrom(t, m, code);
    hide RacksOf, RacksDistinct;
    RackAt(t', m, k);
    RacksApart(t', m, k, id);
  }

  lemma RackCame(t: Tree, t': Tree, m: Id, id: Id, code: string)
    requires RacksDistinct(t) && RacksDistinct(t') && OneRackMore(t, t', m, id) && code in RacksOf(t', m)
    ensures code in RacksOf(t, m) || code == t'.racks[id].code
  {
    var k := RackFrom(t', m, code);
    hide RacksOf, RacksDistinct;
    if k != id {
      RackAt(t, m, k);
    }
  }

  lemma RackAdded(t: Tree, t': Tree, m: Id, id: Id)
    requires RacksDistinct(t) && RacksDistinct(t') && OneRackMore(t, t', m, id)
    ensures RacksOf(t', m) == RacksOf(t, m)[t'.racks[id].code := RackShapeOf(t'.racks[id])]
    ensures t'.racks[id].code !in RacksOf(t, m)
  {
    RackAt(t', m, id);
    hide RacksOf, RacksDistinct, RackShapeOf;
    forall code | code in RacksOf(t, m)
      ensures code in RacksOf(t', m) && RacksOf(t', m)[code] == RacksOf(t, m)[code] && code != t'.racks[id].code
    {
      RackStays(t, t', m, id, code);
    }
    forall code | code in RacksOf(t', m)
      ensures code in RacksOf(t, m) || code == t'.racks[id].code
    {
      RackCame(t, t', m, id, code);
    }
    assert t'.racks[id].code !in RacksOf(t, m);
    OneMore(RacksOf(t, m), RacksOf(t', m), t'.racks[id].code);
  }

  // ----- moving -----

  lemma MovedRoomShapes(t: Tree, r: Request, t': Tree, m: Id)
    requires WellFormed(t) && WellFormed(t') && r.MoveRoom? && ShiftRoom(t, r) == Done(t') && m in t.rooms
    ensures m in t'.rooms && RacksOf(t', m) == RacksOf(t, m)
    ensures m != r.id ==> t'.rooms[m] == t.rooms[m]
  {
    forall k
      ensures RackIn(t, k, m) <==> RackIn(t', k, m)
      ensures RackIn(t, k, m) ==> t'.racks[k].(center := 0) == t.racks[k].(center := 0)
    {
    }
    SameRacksOf(t, t', m);
  }

  lemma MovedRoomMembers(t: Tree, r: Request, t': Tree)
    requires r.MoveRoom? && ShiftRoom(t, r) == Done(t')
    ensures r.id in t.rooms && r.target.Some? && t.rooms[r.id].center != r.target.value
    ensures forall m, c | m != r.id :: RoomIn(t, m, c) <==> RoomIn(t', m, c)
    ensures forall c :: RoomIn(t, r.id, c) <==> c == t.rooms[r.id].center
    ensures forall c :: RoomIn(t', r.id, c) <==> c == r.target.value
    ensures t'.rooms[r.id].(version := 0) ==
            t.rooms[r.id].(version := 0, center := r.target.value, code := r.code, name := r.name)
    ensures t'.centers == t.centers
  {
  }

  /** The room's content, read off the two trees. */
  lemma MovedRoomShape(t: Tree, r: Request, t': Tree)
    requires WellFormed(t) && WellFormed(t') && r.MoveRoom? && ShiftRoom(t, r) == Done(t')
    ensures r.id in t.rooms && r.id in t'.rooms && t'.rooms[r.id].code == r.code
    ensures RoomShapeOf(t', r.id) == RoomShapeOf(t, r.id).(name := r.name)
  {
    hide ShiftRoom, RacksOf, RoomsDistinct, RacksDistinct, ParentsLive, CentersDistinct;
    MovedRoomMembers(t, r, t');
    MovedRoomShapes(t, r, t', r.id);
    assert t'.rooms[r.id].(version := 0).name == r.name && t'.rooms[r.id].(version := 0).code == r.code;
    assert t'.rooms[r.id].(version := 0).attrs == t.rooms[r.id].attrs;
    assert t'.rooms[r.id].(version := 0).status == t.rooms[r.id].status;
  }

  /** Rooms other than the moved one are the same in both trees. */
  lemma OtherRoomShapes(t: Tree, r: Request, t': Tree, c: Id)
    requires WellFormed(t) && WellFormed(t') && r.MoveRoom? && ShiftRoom(t, r) == Done(t')
    ensures forall m | m != r.id && (RoomIn(t, m, c) || RoomIn(t', m, c)) ::
              && RoomIn(t, m, c) && RoomIn(t', m, c)
              && t'.rooms[m] == t.rooms[m] && RoomShapeOf(t', m) == RoomShapeOf(t, m)
  {
    hide ShiftRoom, RacksOf, RoomsDistinct, RacksDistinct, ParentsLive, CentersDistinct;
    MovedRoomMembers(t, r, t');
    forall m | m in t.rooms
      ensures m in t'.rooms && RacksOf(t', m) == RacksOf(t, m) && (m != r.id ==> t'.rooms[m] == t.rooms[m])
    {
      MovedRoomShapes(t, r, t', m);
    }
  }

  lemma RoomArrives(t: Tree, r: Request, t': Tree, c: Id)
    requires WellFormed(t) && WellFormed(t') && r.MoveRoom? && ShiftRoom(t, r) == Done(t') && r.target == Some(c)
    ensures r.code !in RoomShapesOf(t, c) && r.id in t'.rooms
    ensures RoomShapesOf(t', c) == RoomShapesOf(t, c)[r.code := RoomShapeOf(t', r.id)]
  {
    hide ShiftRoom, RoomShapesOf, RoomShapeOf, RoomsDistinct, RacksDistinct, ParentsLive, CentersDistinct;
    MovedRoomMembers(t, r, t');
    MovedRoomShape(t, r, t');
    OtherRoomShapes(t, r, t', c);
    RoomAdded(t, t', c, r.id);
  }

  lemma RoomLeaves(t: Tree, r: Request, t': Tree, c: Id)
    requires WellFormed(t) && WellFormed(t') && r.MoveRoom? && ShiftRoom(t, r) == Done(t')
    requires r.id in t.rooms && t.rooms[r.id].center == c
    ensures RoomShapesOf(t', c) == RoomShapesOf(t, c) - {t.rooms[r.id].code}
  {
    hide ShiftRoom, RoomShapesOf, RoomShapeOf, RoomsDistinct, RacksDistinct, ParentsLive, CentersDistinct;
    MovedRoomMembers(t, r, t');
    OtherRoomShapes(t, r, t', c);
    RoomAdded(t', t, c, r.id);
  }

  lemma RoomElsewhere(t: Tree, r: Request, t': Tree, c: Id)
    requires WellFormed(t) && WellFormed(t') && r.MoveRoom? && ShiftRoom(t, r) == Done(t')
    requires r.id in t.rooms && t.rooms[r.id].center != c && r.target != Some(c)
    ensures RoomShapesOf(t', c) == RoomShapesOf(t, c)
  {
    hide ShiftRoom, RoomShapesOf, RoomShapeOf, RoomsDistinct, RacksDistinct, ParentsLive, CentersDistinct;
    MovedRoomMembers(t, r, t');
    OtherRoomShapes(t, r, t', c);
    MappedRooms(t, c, t', c, map m | m in t.rooms :: m);
  }

  /**
   * A move takes a room out of one data centre and puts it, renamed and with the same racks, into the other;
   * no other data centre changes.
   */
  lemma MoveRoomIsFaithful(t: Tree, r: Request, t': Tree, c: Id)
    requires WellFormed(t) && r.MoveRoom? && ShiftRoom(t, r) == Done(t')
    ensures WellFormed(t') && r.id in t.rooms && r.target.Some? && r.id in t'.rooms && t'.centers == t.centers
    ensures t'.rooms[r.id].code == r.code && RoomShapeOf(t', r.id) == RoomShapeOf(t, r.id).(name := r.name)
    ensures c == r.target.value ==>
              && r.code !in RoomShapesOf(t, c)
              && RoomShapesOf(t', c) == RoomShapesOf(t, c)[r.code := RoomShapeOf(t', r.id)]
    ensures c == t.rooms[r.id].center ==> RoomShapesOf(t', c) == RoomShapesOf(t, c) - {t.rooms[r.id].code}
    ensures c != r.target.value && c != t.rooms[r.id].center ==> RoomShapesOf(t', c) == RoomShapesOf(t, c)
  {
    ShiftRoomKeeps(t, r);
    hide ShiftRoom, RoomShapesOf, RoomShapeOf, RoomsDistinct, RacksDistinct, ParentsLive, CentersDistinct;
    MovedRoomMembers(t, r, t');
    MovedRoomShape(t, r, t');
    if c == r.target.value {
      RoomArrives(t, r, t', c);
    } else if c == t.rooms[r.id].center {
      RoomLeaves(t, r, t', c);
    } else {
      RoomElsewhere(t, r, t', c);
    }
  }

  lemma MovedRackMembers(t: Tree, r: Request, t': Tree)
    requires r.MoveRack? && ShiftRack(t, r) == Done(t')
    ensures r.id in t.racks && r.id in t'.racks && r.target.Some? && t.racks[r.id].room != r.target.value
    ensures t'.rooms == t.rooms && t'.centers == t.centers && t'.racks[r.id].code == r.code
    ensures RackShapeOf(t'.racks[r.id]) == RackShape(r.name, t.racks[r.id].attrs)
    ensures forall k | k != r.id && (k in t.racks || k in t'.racks) ::
              k in t.racks && k in t'.racks && t'.racks[k] == t.racks[k]
    ensures forall m :: RackIn(t, r.id, m) <==> m == t.racks[r.id].room
    ensures forall m :: RackIn(t', r.id, m) <==> m == r.target.value
  {
  }

  /** A move takes a rack out of one room and puts it, renamed, into the other; no other room changes. */
  lemma MoveRackIsFaithful(t: Tree, r: Request, t': Tree, m: Id)
    requires WellFormed(t) && r.MoveRack? && ShiftRack(t, r) == Done(t')
    ensures WellFormed(t') && r.id in t.racks && r.id in t'.racks && r.target.Some?
    ensures t'.rooms == t.rooms && t'.centers == t.centers && t'.racks[r.id].code == r.code
    ensures m == r.target.value ==>
              && r.code !in RacksOf(t, m)
              && RacksOf(t', m) == RacksOf(t, m)[r.code := RackShape(r.name, t.racks[r.id].attrs)]
    ensures m == t.racks[r.id].room ==> RacksOf(t', m) == RacksOf(t, m) - {t.racks[r.id].code}
    ensures m != r.target.value && m != t.racks[r.id].room ==> RacksOf(t', m) == RacksOf(t, m)
  {
    hide ShiftRack, RacksOf, RackShapeOf, RoomsDistinct, RacksDistinct, ParentsLive, CentersDistinct;
    RackRowKeeps(t, r);
    MovedRackMembers(t, r, t');
    if m == r.target.value {
      RackAdded(t, t', m, r.id);
    } else if m == t.racks[r.id].room {
      RackAdded(t', t, m, r.id);
    } else {
      SameRacksOf(t, t', m);
    }
  }

  // ----- copying a room -----

  lemma CopiedRoomRacks(t: Tree, source: Id, row: Room, id: Id, mint: map<Id, Id>)
    requires WellFormed(t) && id !in t.rooms && source in t.rooms && Mints(t.racks.Keys, mint)
    ensures RacksCopied(t, WithRoomCopy(t, source, row, id, mint), {source}, map[source := id], row.center, mint)
  {
    hide Mints, RackCopies, CentersDistinct, RoomsDistinct, RacksDistinct;
    forall k
      ensures !RackIn(t, k, id)
    {
      assert LiveRack(t, k) ==> LiveRoom(t, t.racks[k].room);
    }
  }

  lemma RoomCopyFields(t: Tree, r: Request, t': Tree)
    requires WellFormed(t) && r.CopyRoom? && Fresh(t, r) && DupRoom(t, r) == Done(t')
    ensures r.source in t.rooms && r.id !in t.rooms && r.id in t'.rooms && Mints(t.racks.Keys, r.mint)
    ensures t'.centers == t.centers && forall m | m in t.rooms :: m in t'.rooms && t'.rooms[m] == t.rooms[m]
    ensures var copy := RoomCopy(t.rooms[r.source], TargetOr(r.target, t.rooms[r.source].center));
            var row := copy.(code := r.code, name := r.name);
            t' == WithRoomCopy(t, r.source, row, r.id, r.mint) && t'.rooms[r.id] == row
  {
    hide Mints, RackCopies, RoomsDistinct, RacksDistinct, ParentsLive, CentersDistinct, RoomCodeTaken;
  }

  /** The copy of a room has its shape, and every room that was there stays as it was. */
  lemma CopyRoomIsFaithful(t: Tree, r: Request, t': Tree, m: Id)
    requires WellFormed(t) && r.CopyRoom? && Fresh(t, r) && DupRoom(t, r) == Done(t') && m in t.rooms
    ensures WellFormed(t') && r.source in t.rooms && r.id in t'.rooms && r.id !in t.rooms && t'.centers == t.centers
    ensures t'.rooms[r.id].code == r.code && t'.rooms[r.id].center == TargetOr(r.target, t.rooms[r.source].center)
    ensures RoomShapeOf(t', r.id) == RoomShapeOf(t, r.source).(name := r.name)
    ensures m in t'.rooms && t'.rooms[m] == t.rooms[m] && RoomShapeOf(t', m) == RoomShapeOf(t, m)
  {
    hide DupRoom, Fresh, WithRoomCopy, RacksCopied, RacksOf, Mints;
    hide RoomsDistinct, RacksDistinct, ParentsLive, CentersDistinct;
    CopyRoomKeeps(t, r);
    RoomCopyFields(t, r, t');
    var row := t'.rooms[r.id];
    CopiedRoomRacks(t, r.source, row, r.id, r.mint);
    CopiedRacks(t, t', {r.source}, map[r.source := r.id], row.center, r.mint, r.source);
    OtherRacks(t, t', {r.source}, map[r.source := r.id], row.center, r.mint, m);
  }
}
