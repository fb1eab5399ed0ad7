// The hierarchy requests as the service runs them, with the nested loops that copy subtrees.

module HierarchyService {
  import opened Wrappers
  import opened Hierarchy
  import opened HierarchyOutcomes
  import opened HierarchyProofs
  import opened Shapes

  /** The call ended as specified: with the new tree, or with the error and the old one. */
  ghost predicate Agrees(before: Tree, outcome: Outcome, after: Tree, error: Option<Error>) {
    match outcome
    case Done(tree) => error == None && after == tree
    case Fail(e) => error == Some(e) && after == before
  }

  lemma StaysWellFormed(t: Tree, r: Request, t': Tree)
    requires WellFormed(t) && Fresh(t, r) && Apply(t, r) == Done(t')
    ensures WellFormed(t')
  {
    hide WellFormed, Fresh, Apply;
    ApplyKeepsWellFormed(t, r);
  }

  // ----- what copies and moves show -----

  /** The data centre `id` shows what `source` does. No row that was there is touched; all others show what they did. */
  ghost predicate CenterCopied(t: Tree, t': Tree, source: Id, id: Id, code: string, name: string)
    requires WellFormed(t) && WellFormed(t')
  {
    && RowsKept(t, t') && source in t.centers && LiveCenter(t', id) && t'.centers[id].code == code
    && ShapeOf(t', id) == ShapeOf(t, source).(name := name)
    && forall c :: c in t.centers ==> c in t'.centers && ShapeOf(t', c) == ShapeOf(t, c)
  }

  lemma CopySource(t: Tree, r: Request)
    requires r.CopyCenter? && Fresh(t, r) && DupCenter(t, r).Done?
    ensures r.source in t.centers
  {
    hide Fresh, WithCenterCopy;
  }

  lemma CenterShows(t: Tree, r: Request, t': Tree)
    requires WellFormed(t) && r.CopyCenter? && Fresh(t, r) && DupCenter(t, r) == Done(t')
    ensures WellFormed(t') && CenterCopied(t, t', r.source, r.id, r.code, r.name)
  {
    hide ParentsLive, CentersDistinct, RoomsDistinct, RacksDistinct, ShapeOf, DupCenter, Fresh, RowsKept;
    CopySource(t, r);
    CopyCenterIsFaithful(t, r, t', r.source);
    forall c | c in t.centers
      ensures c in t'.centers && ShapeOf(t', c) == ShapeOf(t, c)
    {
      CopyCenterIsFaithful(t, r, t', c);
    }
  }

  /** The room `id` shows what `source` does, and all others stay and show what they did. */
  ghost predicate RoomCopied(t: Tree, t': Tree, source: Id, id: Id, target: Option<Id>, code: string, name: string)
    requires WellFormed(t) && WellFormed(t')
  {
    && source in t.rooms && id !in t.rooms && id in t'.rooms && t'.centers == t.centers
    && t'.rooms[id].code == code && t'.rooms[id].center == TargetOr(target, t.rooms[source].center)
    && RoomShapeOf(t', id) == RoomShapeOf(t, source).(name := name)
    && forall m :: m in t.rooms ==>
         m in t'.rooms && t'.rooms[m] == t.rooms[m] && RoomShapeOf(t', m) == RoomShapeOf(t, m)
  }

  lemma RoomShows(t: Tree, r: Request, t': Tree)
    requires WellFormed(t) && r.CopyRoom? && Fresh(t, r) && DupRoom(t, r) == Done(t')
    ensures WellFormed(t') && RoomCopied(t, t', r.source, r.id, r.target, r.code, r.name)
  {
    hide ParentsLive, CentersDistinct, RoomsDistinct, RacksDistinct, RoomShapeOf, DupRoom, Fresh, WithRoomCopy;
    RoomCopyFields(t, r, t');
    CopyRoomIsFaithful(t, r, t', r.source);
    forall m | m in t.rooms
      ensures m in t'.rooms && t'.rooms[m] == t.rooms[m] && RoomShapeOf(t', m) == RoomShapeOf(t, m)
    {
      CopyRoomIsFaithful(t, r, t', m);
    }
  }

  /** The room has left its data centre and shows, renamed, in the other; no third one looks different. */
  ghost predicate RoomMoved(t: Tree, t': Tree, id: Id, target: Id, code: string, name: string)
    requires WellFormed(t) && WellFormed(t')
  {
    && id in t.rooms && id in t'.rooms && t'.centers == t.centers && t.rooms[id].center != target
    && RoomShapeOf(t', id) == RoomShapeOf(t, id).(name := name) && code !in RoomShapesOf(t, target)
    && forall c :: RoomShapesOf(t', c) ==
         if c == target then RoomShapesOf(t, c)[code := RoomShapeOf(t', id)]
         else if c == t.rooms[id].center then RoomShapesOf(t, c) - {t.rooms[id].code}
         else RoomShapesOf(t, c)
  }

  lemma MovedRoomShows(t: Tree, r: Request, t': Tree)
    requires WellFormed(t) && r.MoveRoom? && ShiftRoom(t, r) == Done(t')
    ensures WellFormed(t') && r.target.Some? && RoomMoved(t, t', r.id, r.target.value, r.code, r.name)
  {
    hide ParentsLive, CentersDistinct, RoomsDistinct, RacksDistinct, RoomShapeOf, RoomShapesOf, ShiftRoom, RoomIn;
    MovedRoomMembers(t, r, t');
    MoveRoomIsFaithful(t, r, t', r.target.value);
    forall c
      ensures RoomShapesOf(t', c) ==
              if c == r.target.value then RoomShapesOf(t, c)[r.code := RoomShapeOf(t', r.id)]
              else if c == t.rooms[r.id].center then RoomShapesOf(t, c) - {t.rooms[r.id].code}
              else RoomShapesOf(t, c)
    {
      MoveRoomIsFaithful(t, r, t', c);
    }
  }

  /** The rack has left its room and shows, renamed, in the other; no third one looks different. */
  ghost predicate RackMoved(t: Tree, t': Tree, id: Id, target: Id, code: string, name: string)
    requires WellFormed(t) && WellFormed(t')
  {
    && id in t.racks && id in t'.racks && t'.rooms == t.rooms && t'.centers == t.centers && t.racks[id].room != target
    && code !in RacksOf(t, target)
    && forall m :: RacksOf(t', m) ==
         if m == target then RacksOf(t, m)[code := RackShape(name, t.racks[id].attrs)]
         else if m == t.racks[id].room then RacksOf(t, m) - {t.racks[id].code}
         else RacksOf(t, m)
  }

  lemma MovedRackShows(t: Tree, r: Request, t': Tree)
    requires WellFormed(t) && r.MoveRack? && ShiftRack(t, r) == Done(t')
    ensures WellFormed(t') && r.target.Some? && RackMoved(t, t', r.id, r.target.value, r.code, r.name)
  {
    hide ParentsLive, CentersDistinct, RoomsDistinct, RacksDistinct, RacksOf, ShiftRack, RackIn;
    MovedRackMembers(t, r, t');
    MoveRackIsFaithful(t, r, t', r.target.value);
    forall m
      ensures RacksOf(t', m) ==
              if m == r.target.value then RacksOf(t, m)[r.code := RackShape(r.name, t.racks[r.id].attrs)]
              else if m == t.racks[r.id].room then RacksOf(t, m) - {t.racks[r.id].code}
              else RacksOf(t, m)
    {
      MoveRackIsFaithful(t, r, t', m);
    }
  }

  /** The room has one rack more, a copy of `source`; no other row is touched and no other room shows a difference. */
  ghost predicate RackCopied(t: Tree, t': Tree, source: Id, id: Id, target: Option<Id>, code: string, name: string)
    requires WellFormed(t) && WellFormed(t')
  {
    && source in t.racks && id !in t.racks && id in t'.racks && t'.rooms == t.rooms && t'.centers == t.centers
    && var room := if target.Some? then target.value else t.racks[source].room;
       && room in t.rooms
       && t'.racks[id] == Rack(room, t.rooms[room].center, code, name, t.racks[source].attrs, 1, false)
       && (forall k :: k in t.racks ==> k in t'.racks && t'.racks[k] == t.racks[k])
       && code !in RacksOf(t, room)
       && forall m :: RacksOf(t', m) ==
            if m == room then RacksOf(t, m)[code := RackShape(name, t.racks[source].attrs)] else RacksOf(t, m)
  }

  lemma CopiedRackMembers(t: Tree, r: Request, t': Tree)
    requires r.CopyRack? && r.id !in t.racks && DupRack(t, r) == Done(t')
    ensures r.source in t.racks && r.id in t'.racks && t'.rooms == t.rooms && t'.centers == t.centers
    ensures var room := if r.target.Some? then r.target.value else t.racks[r.source].room;
            && room in t.rooms
            && t'.racks[r.id] == Rack(room, t.rooms[room].center, r.code, r.name, t.racks[r.source].attrs, 1, false)
            && forall m :: RackIn(t', r.id, m) <==> m == room
    ensures forall k :: k in t.racks ==> k in t'.racks && t'.racks[k] == t.racks[k]
    ensures forall k, m | k != r.id :: RackIn(t', k, m) <==> RackIn(t, k, m)
  {
  }

  lemma CopyRackKeeps(t: Tree, r: Request, t': Tree)
    requires WellFormed(t) && r.CopyRack? && r.id !in t.racks && DupRack(t, r) == Done(t')
    ensures WellFormed(t')
  {
    hide WellFormed, DupRack;
    RackRowKeeps(t, r);
  }

  lemma CopiedRackShows(t: Tree, r: Request, t': Tree)
    requires WellFormed(t) && r.CopyRack? && r.id !in t.racks && DupRack(t, r) == Done(t')
    ensures WellFormed(t') && RackCopied(t, t', r.source, r.id, r.target, r.code, r.name)
  {
    hide DupRack, RacksOf, RackIn, RoomsDistinct, RacksDistinct, ParentsLive, CentersDistinct;
    CopyRackKeeps(t, r, t');
    CopiedRackMembers(t, r, t');
    var room := if r.target.Some? then r.target.value else t.racks[r.source].room;
    RackJoins(t, t', room, r.id);
  }

  lemma RackJoins(t: Tree, t': Tree, room: Id, id: Id)
    requires RacksDistinct(t) && RacksDistinct(t') && id !in t.racks && id in t'.racks
    requires forall m :: RackIn(t', id, m) <==> m == room
    requires forall k, m | k != id :: RackIn(t', k, m) <==> RackIn(t, k, m)
    requires forall k :: k in t.racks ==> k in t'.racks && t'.racks[k] == t.racks[k]
    ensures t'.racks[id].code !in RacksOf(t, room)
    ensures forall m :: RacksOf(t', m) ==
              if m == room then RacksOf(t, m)[t'.racks[id].code := RackShape(t'.racks[id].name, t'.racks[id].attrs)]
              else RacksOf(t, m)
  {
    assert forall m :: !RackIn(t, id, m);
    assert forall k, m | RackIn(t, k, m) :: k in t.racks;
    hide RacksOf, RacksDistinct, RackIn;
    RackAdded(t, t', room, id);
    forall m | m != room
      ensures RacksOf(t', m) == RacksOf(t, m)
    {
      SameRacksOf(t, t', m);
    }
  }

  // ----- copies made so far -----

  /** A renaming of rows grows by one row. */
  ghost function Renamed<V>(rows: map<Id, V>, mint: map<Id, Id>): map<Id, V>
    requires Mints(rows.Keys, mint)
  {
    map x | x in rows :: mint[x] := rows[x]
  }

  lemma RenamedHas<V>(rows: map<Id, V>, mint: map<Id, Id>, x: Id)
    requires Mints(rows.Keys, mint) && x in rows
    ensures mint[x] in Renamed(rows, mint) && Renamed(rows, mint)[mint[x]] == rows[x]
  {
  }

  lemma RenamedFrom<V>(rows: map<Id, V>, mint: map<Id, Id>, y: Id) returns (x: Id)
    requires Mints(rows.Keys, mint) && y in Renamed(rows, mint)
    ensures x in rows && mint[x] == y
  {
    x :| x in rows && mint[x] == y;
  }

  lemma RenamedGrows<V>(rows: map<Id, V>, mint: map<Id, Id>, x: Id, v: V)
    requires Mints(rows.Keys + {x}, mint)
    ensures Renamed(rows[x := v], mint) == Renamed(rows, mint)[mint[x] := v]
  {
    var grown := rows[x := v];
    var a, b := Renamed(grown, mint), Renamed(rows, mint)[mint[x] := v];
    RenamedHas(grown, mint, x);
    forall y | y in a
      ensures y in b
    {
      var o := RenamedFrom(grown, mint, y);
      if o != x {
        RenamedHas(rows, mint, o);
      }
    }
    forall y | y in b
      ensures y in a && a[y] == b[y]
    {
      if y != mint[x] {
        var o := RenamedFrom(rows, mint, y);
        RenamedHas(rows, mint, o);
        RenamedHas(grown, mint, o);
      }
    }
  }

  lemma MintsSome(all: set<Id>, some: set<Id>, mint: map<Id, Id>)
    requires Mints(all, mint) && some <= all
    ensures Mints(some, mint)
  {
  }

  /** The copies of racks, still under the identifiers of the racks that they copy. */
  ghost function RackRows(t: Tree, rooms: set<Id>, home: map<Id, Id>, center: Id): map<Id, Rack>
    requires rooms <= home.Keys
  {
    map k | k in t.racks && LiveRack(t, k) && t.racks[k].room in rooms ::
      RackCopy(t.racks[k], home[t.racks[k].room], center)
  }

  ghost function RoomRows(t: Tree, rooms: set<Id>, center: Id): map<Id, Room>
    requires rooms <= t.rooms.Keys
  {
    map m | m in rooms :: RoomCopy(t.rooms[m], center)
  }

  lemma RackCopiesRenamed(t: Tree, rooms: set<Id>, home: map<Id, Id>, center: Id, mint: map<Id, Id>)
    requires Mints(t.racks.Keys, mint) && rooms <= home.Keys
    ensures Mints(RackRows(t, rooms, home, center).Keys, mint)
    ensures Renamed(RackRows(t, rooms, home, center), mint) == RackCopies(t, rooms, home, center, mint)
  {
    var rows := RackRows(t, rooms, home, center);
    MintsSome(t.racks.Keys, rows.Keys, mint);
  }

  lemma RoomCopiesRenamed(t: Tree, source: Id, center: Id, mint: map<Id, Id>)
    requires Mints(t.rooms.Keys, mint)
    ensures Mints(RoomRows(t, RoomsOf(t, source), center).Keys, mint)
    ensures Renamed(RoomRows(t, RoomsOf(t, source), center), mint) == RoomCopies(t, source, center, mint)
  {
    MintsSome(t.rooms.Keys, RoomRows(t, RoomsOf(t, source), center).Keys, mint);
  }

  lemma NotMinted<V>(was: map<Id, V>, rows: map<Id, V>, mint: map<Id, Id>, x: Id)
    requires Mints(was.Keys, mint) && Mints(rows.Keys, mint) && rows.Keys <= was.Keys && x in was
    ensures x !in Renamed(rows, mint)
  {
    if x in Renamed(rows, mint) {
      var o := RenamedFrom(rows, mint, x);
    }
  }

  lemma MintsMore<V>(was: map<Id, V>, rows: map<Id, V>, mint: map<Id, Id>, x: Id, v: V)
    requires Mints(was.Keys, mint) && rows.Keys <= was.Keys && x in was
    ensures x in mint && Mints(rows.Keys, mint) && Mints(rows.Keys + {x}, mint) && Mints(rows[x := v].Keys, mint)
  {
    MintsSome(was.Keys, rows.Keys, mint);
    MintsSome(was.Keys, rows.Keys + {x}, mint);
    assert rows[x := v].Keys == rows.Keys + {x};
  }

  /** The rows that the copy of one more row leaves. */
  lemma RowCopied<V>(was: map<Id, V>, rows: map<Id, V>, mint: map<Id, Id>, x: Id, v: V)
    requires Mints(was.Keys, mint) && rows.Keys <= was.Keys && x in was && Mints(rows.Keys, mint)
    ensures Mints(rows[x := v].Keys, mint) && x in mint
    ensures was + Renamed(rows[x := v], mint) == (was + Renamed(rows, mint))[mint[x] := v]
  {
    hide Mints, Renamed;
    MintsMore(was, rows, mint, x, v);
    RenamedGrows(rows, mint, x, v);
    AddThenPut(was, Renamed(rows, mint), mint[x], v);
  }

  lemma AddThenPut<V>(a: map<Id, V>, b: map<Id, V>, x: Id, v: V)
    ensures a + b[x := v] == (a + b)[x := v]
  {
  }

  /** `rows` is `done` with the copies of the racks `ids`. */
  ghost predicate Copied(t: Tree, done: map<Id, Rack>, rows: map<Id, Rack>, ids: seq<Id>, home: Id, center: Id) {
    && (forall k :: k in rows <==> k in done || k in ids)
    && (forall k :: k in ids ==> k in t.racks && k in rows && rows[k] == RackCopy(t.racks[k], home, center))
    && (forall k :: k in done && k !in ids ==> k in rows && rows[k] == done[k])
  }

  lemma CopiedStep(t: Tree, done: map<Id, Rack>, rows: map<Id, Rack>, ids: seq<Id>, k: Id, home: Id, center: Id)
    requires Copied(t, done, rows, ids, home, center) && k in t.racks
    ensures Copied(t, done, rows[k := RackCopy(t.racks[k], home, center)], ids + [k], home, center)
  {
  }

  lemma CopiedAll(t: Tree, done: map<Id, Rack>, rows: map<Id, Rack>, ids: seq<Id>, m: Id, home: Id, center: Id)
    requires Copied(t, done, rows, ids, home, center) && forall k :: k in ids <==> RackIn(t, k, m)
    ensures rows == done + map k | k in t.racks && RackIn(t, k, m) :: RackCopy(t.racks[k], home, center)
  {
  }

  /** `u` is `t` with the rooms `done` and their racks copied. */
  ghost predicate Progress(t: Tree, u: Tree, done: set<Id>, center: Id, mint: map<Id, Id>) {
    && done <= t.rooms.Keys && done <= mint.Keys
    && Mints(RoomRows(t, done, center).Keys, mint) && Mints(RackRows(t, done, mint, center).Keys, mint)
    && RackRows(t, done, mint, center).Keys <= t.racks.Keys && RoomRows(t, done, center).Keys <= t.rooms.Keys
    && u.rooms == t.rooms + Renamed(RoomRows(t, done, center), mint)
    && u.racks == t.racks + Renamed(RackRows(t, done, mint, center), mint)
  }

  lemma RoomStep(t: Tree, done: set<Id>, m: Id, mint: map<Id, Id>, center: Id)
    requires done <= t.rooms.Keys && m in t.rooms
    ensures RoomRows(t, done + {m}, center) == RoomRows(t, done, center)[m := RoomCopy(t.rooms[m], center)]
  {
  }

  lemma RackStep(t: Tree, done: set<Id>, m: Id, mint: map<Id, Id>, center: Id)
    requires done + {m} <= mint.Keys
    ensures RackRows(t, done + {m}, mint, center) ==
            RackRows(t, done, mint, center) +
            map k | k in t.racks && RackIn(t, k, m) :: RackCopy(t.racks[k], mint[m], center)
  {
  }

  /** The copies made so far are in new rooms, so a query for the racks of an old one does not find them. */
  lemma QueryUnaffected(t: Tree, t': Tree, done: set<Id>, m: Id, mint: map<Id, Id>, center: Id)
    requires Mints(t.rooms.Keys, mint) && Mints(t.racks.Keys, mint) && done <= t.rooms.Keys && m in t.rooms
    requires Mints(RackRows(t, done, mint, center).Keys, mint)
    requires t'.racks == t.racks + Renamed(RackRows(t, done, mint, center), mint)
    ensures forall k :: RackIn(t', k, m) <==> RackIn(t, k, m)
  {
    var rows := RackRows(t, done, mint, center);
    forall k
      ensures RackIn(t', k, m) <==> RackIn(t, k, m)
    {
      if k in t.racks {
        NotMinted(t.racks, rows, mint, k);
      } else if k in Renamed(rows, mint) {
        var o := RenamedFrom(rows, mint, k);
        RenamedHas(rows, mint, o);
      }
    }
  }

  lemma RenameNothing<V>(was: map<Id, V>, mint: map<Id, Id>)
    ensures var none: map<Id, V> := map[]; Mints(none.Keys, mint) && was + Renamed(none, mint) == was
  {
    var none: map<Id, V> := map[];
    assert Renamed(none, mint) == map[];
  }

  lemma NoRows(t: Tree, mint: map<Id, Id>, center: Id)
    ensures RoomRows(t, {}, center) == map[] && RackRows(t, {}, mint, center) == map[]
  {
    var racks := RackRows(t, {}, mint, center);
    assert racks.Keys == {};
  }

  lemma NothingCopied(t: Tree, u: Tree, mint: map<Id, Id>, center: Id)
    requires u.rooms == t.rooms && u.racks == t.racks
    ensures Progress(t, u, {}, center, mint)
  {
    hide Renamed, Mints, RoomRows, RackRows;
    RenameNothing(t.rooms, mint);
    RenameNothing(t.racks, mint);
    NoRows(t, mint, center);
  }

  /** What is known when the row of a room is copied. */
  lemma BeforeRoom(t: Tree, u: Tree, done: set<Id>, m: Id, mint: map<Id, Id>, center: Id)
    requires Mints(t.rooms.Keys, mint) && m in t.rooms && done <= t.rooms.Keys
    requires Mints(RoomRows(t, done, center).Keys, mint) && RoomRows(t, done, center).Keys <= t.rooms.Keys
    requires u.rooms == t.rooms + Renamed(RoomRows(t, done, center), mint)
    ensures m in mint && m in u.rooms && u.rooms[m] == t.rooms[m]
    ensures Mints(RoomRows(t, done + {m}, center).Keys, mint)
    ensures u.rooms[mint[m] := RoomCopy(t.rooms[m], center)] == t.rooms + Renamed(RoomRows(t, done + {m}, center), mint)
  {
    hide Mints, Renamed, RoomRows;
    var rows := RoomRows(t, done, center);
    NotMinted(t.rooms, rows, mint, m);
    RowCopied(t.rooms, rows, mint, m, RoomCopy(t.rooms[m], center));
    RoomStep(t, done, m, mint, center);
  }

  /** What is known when its racks are copied as well. */
  lemma AfterRoom(t: Tree, u: Tree, done: set<Id>, m: Id, mint: map<Id, Id>, center: Id, rows: map<Id, Rack>)
    requires m in t.rooms && m in mint && done <= t.rooms.Keys && done <= mint.Keys
    requires Mints(t.rooms.Keys, mint)
    requires Mints(RoomRows(t, done + {m}, center).Keys, mint)
    requires u.rooms == t.rooms + Renamed(RoomRows(t, done + {m}, center), mint)
    requires rows == RackRows(t, done, mint, center) +
                     map k | k in t.racks && RackIn(t, k, m) :: RackCopy(t.racks[k], mint[m], center)
    requires rows.Keys <= t.racks.Keys && Mints(rows.Keys, mint) && u.racks == t.racks + Renamed(rows, mint)
    ensures Progress(t, u, done + {m}, center, mint)
  {
    hide Mints, Renamed, RackRows, RoomRows, RackIn;
    RoomRowsKnown(t, done + {m}, center);
    RackStep(t, done, m, mint, center);
  }

  lemma RoomRowsKnown(t: Tree, rooms: set<Id>, center: Id)
    requires rooms <= t.rooms.Keys
    ensures RoomRows(t, rooms, center).Keys <= t.rooms.Keys
  {
  }

  lemma EverythingCopied(t: Tree, u: Tree, source: Id, mint: map<Id, Id>, center: Id)
    requires Mints(t.rooms.Keys, mint) && Mints(t.racks.Keys, mint)
    requires Progress(t, u, RoomsOf(t, source), center, mint)
    ensures u.rooms == t.rooms + RoomCopies(t, source, center, mint)
    ensures u.racks == t.racks + RackCopies(t, RoomsOf(t, source), mint, center, mint)
  {
    hide Renamed, Mints, RoomRows, RackRows, RoomCopies, RackCopies, RoomsOf;
    RoomCopiesRenamed(t, source, center, mint);
    RackCopiesRenamed(t, RoomsOf(t, source), mint, center, mint);
  }

  lemma OneRoom(t: Tree, m: Id, home: Id, center: Id)
    ensures RackRows(t, {m}, map[m := home], center) ==
            map[] + map k | k in t.racks && RackIn(t, k, m) :: RackCopy(t.racks[k], home, center)
  {
  }

  lemma RoomCopyDone(t: Tree, u: Tree, source: Id, row: Room, id: Id, mint: map<Id, Id>, rows: map<Id, Rack>)
    requires Mints(t.racks.Keys, mint) && Mints(rows.Keys, mint)
    requires rows == map[] + map k | k in t.racks && RackIn(t, k, source) :: RackCopy(t.racks[k], id, row.center)
    requires u.centers == t.centers && u.rooms == t.rooms[id := row] && u.racks == t.racks + Renamed(rows, mint)
    ensures u == WithRoomCopy(t, source, row, id, mint)
  {
    hide Mints, RackCopies, Renamed, RackRows;
    OneRoom(t, source, id, row.center);
    RackCopiesRenamed(t, {source}, map[source := id], row.center, mint);
  }

  class ResourceService {
    var centers: map<Id, Center>
    var rooms: map<Id, Room>
    var racks: map<Id, Rack>

    function State(): Tree
      reads this
    {
      Tree(centers, rooms, racks)
    }

    constructor ()
      ensures State() == EMPTY_TREE
    {
      centers, rooms, racks := map[], map[], map[];
    }

    /** The live racks of a room, in some order. */
    method RacksOfRoom(m: Id) returns (found: seq<Id>)
      ensures forall k :: k in found <==> RackIn(State(), k, m)
      ensures forall i, j :: 0 <= i < j < |found| ==> found[i] != found[j]
    {
      found := [];
      var rest := racks.Keys;
      while rest != {}
        invariant rest <= racks.Keys
        invariant forall k :: k in found <==> RackIn(State(), k, m) && k !in rest
        invariant forall i, j :: 0 <= i < j < |found| ==> found[i] != found[j]
        decreases |rest|
      {
        var k :| k in rest;
        rest := rest - {k};
        if !racks[k].deleted && racks[k].room == m {
          found := found + [k];
        }
      }
    }

    method RoomsOfCenter(c: Id) returns (found: seq<Id>)
      ensures forall m :: m in found <==> RoomIn(State(), m, c)
      ensures forall i, j :: 0 <= i < j < |found| ==> found[i] != found[j]
    {
      found := [];
      var rest := rooms.Keys;
      while rest != {}
        invariant rest <= rooms.Keys
        invariant forall m :: m in found <==> RoomIn(State(), m, c) && m !in rest
        invariant forall i, j :: 0 <= i < j < |found| ==> found[i] != found[j]
        decreases |rest|
      {
        var m :| m in rest;
        rest := rest - {m};
        if !rooms[m].deleted && rooms[m].center == c {
          found := found + [m];
        }
      }
    }

    /** Copies the racks of room `m` of the tree `t` into the room `home`. */
    method CopyRacks(ghost t: Tree, ghost done: map<Id, Rack>, m: Id, home: Id, center: Id, mint: map<Id, Id>)
      returns (ghost rows: map<Id, Rack>)
      requires Mints(t.racks.Keys, mint) && Mints(done.Keys, mint) && done.Keys <= t.racks.Keys
      requires racks == t.racks + Renamed(done, mint)
      requires forall k :: RackIn(State(), k, m) <==> RackIn(t, k, m)
      modifies this`racks
      ensures rows.Keys <= t.racks.Keys && Mints(rows.Keys, mint) && racks == t.racks + Renamed(rows, mint)
      ensures rows == done + map k | k in t.racks && RackIn(t, k, m) :: RackCopy(t.racks[k], home, center)
    {
      hide Mints, Renamed;
      var found := RacksOfRoom(m);
      assert forall k :: k in found <==> RackIn(t, k, m);
      rows := done;
      assert found[..0] == [];
      for i := 0 to |found|
        invariant Mints(rows.Keys, mint) && rows.Keys <= t.racks.Keys
        invariant racks == t.racks + Renamed(rows, mint)
        invariant Copied(t, done, rows, found[..i], home, center)
      {
        hide Copied;
        var k := found[i];
        assert k in found && RackIn(t, k, m);
        NotMinted(t.racks, rows, mint, k);
        assert racks[k] == t.racks[k];
        RowCopied(t.racks, rows, mint, k, RackCopy(t.racks[k], home, center));
        CopiedStep(t, done, rows, found[..i], k, home, center);
        assert found[..i + 1] == found[..i] + [k];
        racks := racks[mint[k] := racks[k].(version := 1, room := home, center := center)];
        rows := rows[k := RackCopy(t.racks[k], home, center)];
      }
      assert found[..|found|] == found;
      CopiedAll(t, done, rows, found, m, home, center);
    }
  
    /** Copies one room and its racks. */
    method CopyOneRoom(ghost t: Tree, ghost done: set<Id>, m: Id, id: Id, mint: map<Id, Id>)
      requires Mints(t.rooms.Keys, mint) && Mints(t.racks.Keys, mint) && m in t.rooms
      requires Progress(t, State(), done, id, mint)
      modifies this`rooms, this`racks
      ensures Progress(t, State(), done + {m}, id, mint)
    {
      hide Mints, Renamed, RackRows, RoomRows;
      QueryUnaffected(t, State(), done, m, mint, id);
      BeforeRoom(t, State(), done, m, mint, id);
      rooms := rooms[mint[m] := rooms[m].(version := 1, center := id)];
      ghost var rows := CopyRacks(t, RackRows(t, done, mint, id), m, mint[m], id, mint);
      AfterRoom(t, State(), done, m, mint, id, rows);
    }

    /** Copies the rooms of `source`, and within the loop over them the racks of each. */
    method CopyRooms(ghost t: Tree, source: Id, id: Id, mint: map<Id, Id>)
      requires t.rooms == rooms && t.racks == racks && Mints(t.rooms.Keys, mint) && Mints(t.racks.Keys, mint)
      modifies this`rooms, this`racks
      ensures rooms == t.rooms + RoomCopies(t, source, id, mint)
      ensures racks == t.racks + RackCopies(t, RoomsOf(t, source), mint, id, mint)
    {
      hide Mints, RoomCopies, RackCopies, Progress;
      var found := RoomsOfCenter(source);
      assert forall m :: m in found <==> RoomIn(t, m, source);
      NothingCopied(t, State(), mint, id);
      ghost var done := {};
      for i := 0 to |found|
        invariant done == set m | m in found[..i]
        invariant Progress(t, State(), done, id, mint)
      {
        var m := found[i];
        assert m in found && RoomIn(t, m, source);
        CopyOneRoom(t, done, m, id, mint);
        assert found[..i + 1] == found[..i] + [m];
        done := done + {m};
      }
      assert found[..|found|] == found;
      assert done == RoomsOf(t, source);
      EverythingCopied(t, State(), source, mint, id);
    }
  
    // ----- data centres -----

    method CreateDataCenter(id: Id, code: string, name: string, status: string, attrs: string)
      returns (error: Option<Error>)
      requires WellFormed(State()) && Fresh(State(), CreateCenter(id, code, name, status, attrs))
      modifies this`centers
      ensures WellFormed(State())
      ensures error.None? <==> Succeeds(old(State()), CreateCenter(id, code, name, status, attrs))
      ensures error.None? ==> Leaves(old(State()), CreateCenter(id, code, name, status, attrs), State())
      ensures error.Some? ==> Refused(old(State()), CreateCenter(id, code, name, status, attrs), error.value)
                              && State() == old(State())
      ensures Agrees(old(State()), NewCenter(old(State()), CreateCenter(id, code, name, status, attrs)), State(), error)
    {
      RequestOutcome(State(), CreateCenter(id, code, name, status, attrs));
      hide Succeeds, Leaves, Refused, WellFormed;
      if code == "" || name == "" {
        return Some(Invalid);
      }
      var given := status;
      if given == "" {
        given := "OPERATING";
      }
      if exists c :: c in centers && !centers[c].deleted && centers[c].code == code {
        return Some(DuplicateCode);
      }
      centers := centers[id := Center(code, name, given, attrs, 1, false)];
      StaysWellFormed(old(State()), CreateCenter(id, code, name, status, attrs), State());
      error := None;
    }

    method UpdateDataCenter(id: Id, version: nat, code: string, name: string, status: string, attrs: string)
      returns (error: Option<Error>)
      requires WellFormed(State())
      modifies this`centers
      ensures WellFormed(State())
      ensures error.None? <==> Succeeds(old(State()), UpdateCenter(id, version, code, name, status, attrs))
      ensures error.None? ==> Leaves(old(State()), UpdateCenter(id, version, code, name, status, attrs), State())
      ensures error.Some? ==> Refused(old(State()), UpdateCenter(id, version, code, name, status, attrs), error.value)
                              && State() == old(State())
      ensures Agrees(old(State()), EditCenter(old(State()), UpdateCenter(id, version, code, name, status, attrs)),
                     State(), error)
    {
      RequestOutcome(State(), UpdateCenter(id, version, code, name, status, attrs));
      hide Succeeds, Leaves, Refused, WellFormed;
      if id !in centers || centers[id].deleted {
        return Some(NotFound);
      }
      var given := status;
      if given == "" {
        given := centers[id].status;
      }
      if exists c :: c in centers && !centers[c].deleted && centers[c].code == code && c != id {
        return Some(DuplicateCode);
      }
      if centers[id].version != version {
        return Some(VersionConflict);
      }
      centers := centers[id := Center(code, name, given, attrs, version + 1, false)];
      StaysWellFormed(old(State()), UpdateCenter(id, version, code, name, status, attrs), State());
      error := None;
    }

    method DeleteDataCenter(id: Id, version: nat) returns (error: Option<Error>)
      requires WellFormed(State())
      modifies this`centers
      ensures WellFormed(State())
      ensures error.None? <==> Succeeds(old(State()), DeleteCenter(id, version))
      ensures error.None? ==> Leaves(old(State()), DeleteCenter(id, version), State())
      ensures error.Some? ==> Refused(old(State()), DeleteCenter(id, version), error.value)
                              && State() == old(State())
      ensures Agrees(old(State()), EraseCenter(old(State()), DeleteCenter(id, version)), State(), error)
    {
      RequestOutcome(State(), DeleteCenter(id, version));
      hide Succeeds, Leaves, Refused, WellFormed;
      if id !in centers || centers[id].deleted {
        return Some(NotFound);
      }
      if exists m :: m in rooms && !rooms[m].deleted && rooms[m].center == id {
        return Some(HasChildren);
      }
      if centers[id].version != version {
        return Some(VersionConflict);
      }
      centers := centers[id := centers[id].(deleted := true, version := version + 1)];
      StaysWellFormed(old(State()), DeleteCenter(id, version), State());
      error := None;
    }

    method CopyDataCenter(source: Id, version: nat, code: string, name: string, id: Id, mint: map<Id, Id>)
      returns (error: Option<Error>)
      requires WellFormed(State()) && Fresh(State(), CopyCenter(source, version, code, name, id, mint))
      modifies this
      ensures WellFormed(State())
      ensures error.None? ==> CenterCopied(old(State()), State(), source, id, code, name)
      ensures error.None? <==> Succeeds(old(State()), CopyCenter(source, version, code, name, id, mint))
      ensures error.None? ==> Leaves(old(State()), CopyCenter(source, version, code, name, id, mint), State())
      ensures error.Some? ==> Refused(old(State()), CopyCenter(source, version, code, name, id, mint), error.value)
                              && State() == old(State())
      ensures Agrees(old(State()), DupCenter(old(State()), CopyCenter(source, version, code, name, id, mint)),
                     State(), error)
    {
      hide Succeeds, Leaves, Refused, CenterCopied, WellFormed, Mints, DupCenter;
      CopyCenterOutcome(State(), CopyCenter(source, version, code, name, id, mint));
      error := CopyCenterInTx(source, version, code, name, id, mint);
      if error.None? {
        CenterShows(old(State()), CopyCenter(source, version, code, name, id, mint), State());
      }
    }

    method CopyCenterInTx(source: Id, version: nat, code: string, name: string, id: Id, mint: map<Id, Id>)
      returns (error: Option<Error>)
      requires Fresh(State(), CopyCenter(source, version, code, name, id, mint))
      modifies this
      ensures Agrees(old(State()), DupCenter(old(State()), CopyCenter(source, version, code, name, id, mint)),
                     State(), error)
    {
      hide Mints, RoomCopies, RackCopies;
      if source !in centers || centers[source].deleted {
        return Some(NotFound);
      }
      if version > 0 && version != centers[source].version {
        return Some(VersionConflict);
      }
      if exists c :: c in centers && !centers[c].deleted && centers[c].code == code {
        return Some(DuplicateCode);
      }
      ghost var before := State();
      centers := centers[id := centers[source].(version := 1, code := code, name := name)];
      CopyRooms(before, source, id, mint);
      error := None;
    }

    // ----- rooms -----

    method CreateRoom(parent: Id, id: Id, code: string, name: string, status: string, attrs: string)
      returns (error: Option<Error>)
      requires WellFormed(State()) && Fresh(State(), Request.CreateRoom(parent, id, code, name, status, attrs))
      modifies this`rooms
      ensures WellFormed(State())
      ensures error.None? <==> Succeeds(old(State()), Request.CreateRoom(parent, id, code, name, status, attrs))
      ensures error.None? ==> Leaves(old(State()), Request.CreateRoom(parent, id, code, name, status, attrs), State())
      ensures error.Some? ==> Refused(old(State()), Request.CreateRoom(parent, id, code, name, status, attrs),
                                      error.value)
                              && State() == old(State())
      ensures Agrees(old(State()), NewRoom(old(State()), Request.CreateRoom(parent, id, code, name, status, attrs)),
                     State(), error)
    {
      RequestOutcome(State(), Request.CreateRoom(parent, id, code, name, status, attrs));
      hide Succeeds, Leaves, Refused, WellFormed;
      if parent !in centers || centers[parent].deleted {
        return Some(NotFound);
      }
      if centers[parent].status == "DISABLED" || centers[parent].status == "ARCHIVED" {
        return Some(ParentDisabled);
      }
      if code == "" || name == "" {
        return Some(Invalid);
      }
      var given := status;
      if given == "" {
        given := "OPERATING";
      }
      if exists m :: m in rooms && !rooms[m].deleted && rooms[m].center == parent && rooms[m].code == code {
        return Some(DuplicateCode);
      }
      rooms := rooms[id := Room(parent, code, name, given, attrs, 1, false)];
      StaysWellFormed(old(State()), Request.CreateRoom(parent, id, code, name, status, attrs), State());
      error := None;
    }

    method UpdateRoom(id: Id, version: nat, code: string, name: string, status: string, attrs: string)
      returns (error: Option<Error>)
      requires WellFormed(State())
      modifies this`rooms
      ensures WellFormed(State())
      ensures error.None? <==> Succeeds(old(State()), Request.UpdateRoom(id, version, code, name, status, attrs))
      ensures error.None? ==> Leaves(old(State()), Request.UpdateRoom(id, version, code, name, status, attrs), State())
      ensures error.Some? ==> Refused(old(State()), Request.UpdateRoom(id, version, code, name, status, attrs),
                                      error.value)
                              && State() == old(State())
      ensures Agrees(old(State()), EditRoom(old(State()), Request.UpdateRoom(id, version, code, name, status, attrs)),
                     State(), error)
    {
      RequestOutcome(State(), Request.UpdateRoom(id, version, code, name, status, attrs));
      hide Succeeds, Leaves, Refused, WellFormed;
      if id !in rooms || rooms[id].deleted {
        return Some(NotFound);
      }
      var existing := rooms[id];
      var given := status;
      if given == "" {
        given := existing.status;
      }
      var center := existing.center;
      if exists m :: m in rooms && !rooms[m].deleted && rooms[m].center == center && rooms[m].code == code && m != id {
        return Some(DuplicateCode);
      }
      if existing.version != version {
        return Some(VersionConflict);
      }
      rooms := rooms[id := Room(existing.center, code, name, given, attrs, version + 1, false)];
      StaysWellFormed(old(State()), Request.UpdateRoom(id, version, code, name, status, attrs), State());
      error := None;
    }

    method DeleteRoom(id: Id, version: nat) returns (error: Option<Error>)
      requires WellFormed(State())
      modifies this`rooms
      ensures WellFormed(State())
      ensures error.None? <==> Succeeds(old(State()), Request.DeleteRoom(id, version))
      ensures error.None? ==> Leaves(old(State()), Request.DeleteRoom(id, version), State())
      ensures error.Some? ==> Refused(old(State()), Request.DeleteRoom(id, version), error.value)
                              && State() == old(State())
      ensures Agrees(old(State()), EraseRoom(old(State()), Request.DeleteRoom(id, version)), State(), error)
    {
      RequestOutcome(State(), Request.DeleteRoom(id, version));
      hide Succeeds, Leaves, Refused, WellFormed;
      if id !in rooms || rooms[id].deleted {
        return Some(NotFound);
      }
      if exists k :: k in racks && !racks[k].deleted && racks[k].room == id {
        return Some(HasChildren);
      }
      if rooms[id].version != version {
        return Some(VersionConflict);
      }
      rooms := rooms[id := rooms[id].(deleted := true, version := version + 1)];
      StaysWellFormed(old(State()), Request.DeleteRoom(id, version), State());
      error := None;
    }

    method AddRoomCopy(source: Id, row: Room, id: Id, mint: map<Id, Id>)
      requires id !in rooms && source in rooms && Mints(racks.Keys, mint)
      modifies this`rooms, this`racks
      ensures State() == WithRoomCopy(old(State()), source, row, id, mint)
    {
      hide Mints, Renamed, WithRoomCopy;
      ghost var before := State();
      RenameNothing(racks, mint);
      rooms := rooms[id := row];
      ghost var rows := CopyRacks(before, map[], source, id, row.center, mint);
      RoomCopyDone(before, State(), source, row, id, mint, rows);
    }

    method CopyRoom(source: Id, version: nat, target: Option<Id>, code: string, name: string, id: Id, mint: map<Id, Id>)
      returns (error: Option<Error>)
      requires WellFormed(State()) && Fresh(State(), Request.CopyRoom(source, version, target, code, name, id, mint))
      modifies this`rooms, this`racks
      ensures WellFormed(State())
      ensures error.None? ==> RoomCopied(old(State()), State(), source, id, target, code, name)
      ensures error.None? <==> Succeeds(old(State()), Request.CopyRoom(source, version, target, code, name, id, mint))
      ensures error.None? ==> Leaves(old(State()), Request.CopyRoom(source, version, target, code, name, id, mint),
                                     State())
      ensures error.Some? ==> Refused(old(State()), Request.CopyRoom(source, version, target, code, name, id, mint),
                                      error.value)
                              && State() == old(State())
      ensures Agrees(
                old(State()), DupRoom(old(State()), Request.CopyRoom(source, version, target, code, name, id, mint)),
                State(), error)
    {
      RequestOutcome(State(), Request.CopyRoom(source, version, target, code, name, id, mint));
      hide Succeeds, Leaves, Refused, RoomCopied, WellFormed, Mints, WithRoomCopy;
      if source !in rooms || rooms[source].deleted {
        return Some(NotFound);
      }
      if version > 0 && version != rooms[source].version {
        return Some(VersionConflict);
      }
      var center := rooms[source].center;
      if target.Some? {
        center := target.value;
      }
      if center !in centers || centers[center].deleted {
        return Some(TargetNotFound);
      }
      if centers[center].status == "DISABLED" || centers[center].status == "ARCHIVED" {
        return Some(ParentDisabled);
      }
      if exists m :: m in rooms && !rooms[m].deleted && rooms[m].center == center && rooms[m].code == code {
        return Some(DuplicateCode);
      }
      AddRoomCopy(source, rooms[source].(version := 1, center := center, code := code, name := name), id, mint);
      RoomShows(old(State()), Request.CopyRoom(source, version, target, code, name, id, mint), State());
      error := None;
    }

    method MoveRoom(id: Id, version: nat, target: Option<Id>, code: string, name: string) returns (error: Option<Error>)
      requires WellFormed(State())
      modifies this`rooms, this`racks
      ensures WellFormed(State())
      ensures error.None? ==> target.Some? && RoomMoved(old(State()), State(), id, target.value, code, name)
      ensures error.None? <==> Succeeds(old(State()), Request.MoveRoom(id, version, target, code, name))
      ensures error.None? ==> Leaves(old(State()), Request.MoveRoom(id, version, target, code, name), State())
      ensures error.Some? ==> Refused(old(State()), Request.MoveRoom(id, version, target, code, name), error.value)
                              && State() == old(State())
      ensures Agrees(old(State()), ShiftRoom(old(State()), Request.MoveRoom(id, version, target, code, name)),
                     State(), error)
    {
      RequestOutcome(State(), Request.MoveRoom(id, version, target, code, name));
      hide Succeeds, Leaves, Refused, RoomMoved, WellFormed;
      if id !in rooms || rooms[id].deleted {
        return Some(NotFound);
      }
      if version != 0 && version != rooms[id].version {
        return Some(VersionConflict);
      }
      if target.None? || rooms[id].center == target.value {
        return Some(Invalid);
      }
      var center := target.value;
      if center !in centers || centers[center].deleted {
        return Some(TargetNotFound);
      }
      if centers[center].status == "DISABLED" || centers[center].status == "ARCHIVED" {
        return Some(ParentDisabled);
      }
      if code == "" || name == "" {
        return Some(Invalid);
      }
      if exists m :: m in rooms && !rooms[m].deleted && rooms[m].center == center && rooms[m].code == code {
        return Some(DuplicateCode);
      }
      if rooms[id].version != version {
        return Some(VersionConflict);
      }
      rooms := rooms[id := rooms[id].(center := center, code := code, name := name, version := version + 1)];
      racks := map k | k in racks ::
        if racks[k].room == id && !racks[k].deleted then racks[k].(center := center) else racks[k];
      MovedRoomShows(old(State()), Request.MoveRoom(id, version, target, code, name), State());
      error := None;
    }

    // ----- racks -----

    method CreateRack(parent: Id, id: Id, code: string, name: string, attrs: string) returns (error: Option<Error>)
      requires WellFormed(State()) && Fresh(State(), Request.CreateRack(parent, id, code, name, attrs))
      modifies this`racks
      ensures WellFormed(State())
      ensures error.None? <==> Succeeds(old(State()), Request.CreateRack(parent, id, code, name, attrs))
      ensures error.None? ==> Leaves(old(State()), Request.CreateRack(parent, id, code, name, attrs), State())
      ensures error.Some? ==> Refused(old(State()), Request.CreateRack(parent, id, code, name, attrs), error.value)
                              && State() == old(State())
      ensures Agrees(old(State()), NewRack(old(State()), Request.CreateRack(parent, id, code, name, attrs)),
                     State(), error)
    {
      RequestOutcome(State(), Request.CreateRack(parent, id, code, name, attrs));
      hide Succeeds, Leaves, Refused, WellFormed;
      if parent !in rooms || rooms[parent].deleted {
        return Some(NotFound);
      }
      if rooms[parent].status == "DISABLED" || rooms[parent].status == "ARCHIVED" {
        return Some(ParentDisabled);
      }
      if code == "" || name == "" {
        return Some(Invalid);
      }
      if exists k :: k in racks && !racks[k].deleted && racks[k].room == parent && racks[k].code == code {
        return Some(DuplicateCode);
      }
      racks := racks[id := Rack(parent, rooms[parent].center, code, name, attrs, 1, false)];
      StaysWellFormed(old(State()), Request.CreateRack(parent, id, code, name, attrs), State());
      error := None;
    }

    method UpdateRack(id: Id, version: nat, code: string, name: string, attrs: string) returns (error: Option<Error>)
      requires WellFormed(State())
      modifies this`racks
      ensures WellFormed(State())
      ensures error.None? <==> Succeeds(old(State()), Request.UpdateRack(id, version, code, name, attrs))
      ensures error.None? ==> Leaves(old(State()), Request.UpdateRack(id, version, code, name, attrs), State())
      ensures error.Some? ==> Refused(old(State()), Request.UpdateRack(id, version, code, name, attrs), error.value)
                              && State() == old(State())
      ensures Agrees(old(State()), EditRack(old(State()), Request.UpdateRack(id, version, code, name, attrs)),
                     State(), error)
    {
      RequestOutcome(State(), Request.UpdateRack(id, version, code, name, attrs));
      hide Succeeds, Leaves, Refused, WellFormed;
      if id !in racks || racks[id].deleted {
        return Some(NotFound);
      }
      var existing := racks[id];
      if existing.room !in rooms || rooms[existing.room].deleted {
        return Some(NotFound);
      }
      var room := existing.room;
      if exists k :: k in racks && !racks[k].deleted && racks[k].room == room && racks[k].code == code && k != id {
        return Some(DuplicateCode);
      }
      if existing.version != version {
        return Some(VersionConflict);
      }
      racks := racks[id := existing.(code := code, name := name, attrs := attrs, version := version + 1)];
      StaysWellFormed(old(State()), Request.UpdateRack(id, version, code, name, attrs), State());
      error := None;
    }

    /** `inUse` says whether a device or PDU is in the rack. */
    method DeleteRack(id: Id, version: nat, inUse: bool) returns (error: Option<Error>)
      requires WellFormed(State())
      modifies this`racks
      ensures WellFormed(State())
      ensures error.None? <==> Succeeds(old(State()), Request.DeleteRack(id, version, inUse))
      ensures error.None? ==> Leaves(old(State()), Request.DeleteRack(id, version, inUse), State())
      ensures error.Some? ==> Refused(old(State()), Request.DeleteRack(id, version, inUse), error.value)
                              && State() == old(State())
      ensures Agrees(old(State()), EraseRack(old(State()), Request.DeleteRack(id, version, inUse)), State(), error)
    {
      RequestOutcome(State(), Request.DeleteRack(id, version, inUse));
      hide Succeeds, Leaves, Refused, WellFormed;
      if id !in racks || racks[id].deleted {
        return Some(NotFound);
      }
      if inUse {
        return Some(HasChildren);
      }
      if racks[id].version != version {
        return Some(VersionConflict);
      }
      racks := racks[id := racks[id].(deleted := true, version := version + 1)];
      StaysWellFormed(old(State()), Request.DeleteRack(id, version, inUse), State());
      error := None;
    }

    method CopyRack(source: Id, version: nat, target: Option<Id>, code: string, name: string, id: Id)
      returns (error: Option<Error>)
      requires WellFormed(State()) && Fresh(State(), Request.CopyRack(source, version, target, code, name, id))
      modifies this`racks
      ensures WellFormed(State())
      ensures error.None? ==> RackCopied(old(State()), State(), source, id, target, code, name)
      ensures error.None? <==> Succeeds(old(State()), Request.CopyRack(source, version, target, code, name, id))
      ensures error.None? ==> Leaves(old(State()), Request.CopyRack(source, version, target, code, name, id), State())
      ensures error.Some? ==> Refused(old(State()), Request.CopyRack(source, version, target, code, name, id),
                                      error.value)
                              && State() == old(State())
      ensures Agrees(old(State()), DupRack(old(State()), Request.CopyRack(source, version, target, code, name, id)),
                     State(), error)
    {
      RequestOutcome(State(), Request.CopyRack(source, version, target, code, name, id));
      hide Succeeds, Leaves, Refused, RackCopied, WellFormed;
      if source !in racks || racks[source].deleted {
        return Some(NotFound);
      }
      if version > 0 && version != racks[source].version {
        return Some(VersionConflict);
      }
      var room := racks[source].room;
      if target.Some? {
        room := target.value;
      }
      if room !in rooms || rooms[room].deleted {
        return Some(TargetNotFound);
      }
      if rooms[room].status == "DISABLED" || rooms[room].status == "ARCHIVED" {
        return Some(ParentDisabled);
      }
      if exists k :: k in racks && !racks[k].deleted && racks[k].room == room && racks[k].code == code {
        return Some(DuplicateCode);
      }
      var center := rooms[room].center;
      racks := racks[id := racks[source].(version := 1, room := room, center := center, code := code, name := name)];
      CopiedRackShows(old(State()), Request.CopyRack(source, version, target, code, name, id), State());
      error := None;
    }

    method MoveRack(id: Id, version: nat, target: Option<Id>, code: string, name: string) returns (error: Option<Error>)
      requires WellFormed(State())
      modifies this`racks
      ensures WellFormed(State())
      ensures error.None? ==> target.Some? && RackMoved(old(State()), State(), id, target.value, code, name)
      ensures error.None? <==> Succeeds(old(State()), Request.MoveRack(id, version, target, code, name))
      ensures error.None? ==> Leaves(old(State()), Request.MoveRack(id, version, target, code, name), State())
      ensures error.Some? ==> Refused(old(State()), Request.MoveRack(id, version, target, code, name), error.value)
                              && State() == old(State())
      ensures Agrees(old(State()), ShiftRack(old(State()), Request.MoveRack(id, version, target, code, name)),
                     State(), error)
    {
      RequestOutcome(State(), Request.MoveRack(id, version, target, code, name));
      hide Succeeds, Leaves, Refused, RackMoved, WellFormed;
      if id !in racks || racks[id].deleted {
        return Some(NotFound);
      }
      if version != 0 && version != racks[id].version {
        return Some(VersionConflict);
      }
      if target.None? || racks[id].room == target.value {
        return Some(Invalid);
      }
      var room := target.value;
      if room !in rooms || rooms[room].deleted {
        return Some(TargetNotFound);
      }
      if rooms[room].status == "DISABLED" || rooms[room].status == "ARCHIVED" {
        return Some(ParentDisabled);
      }
      if code == "" || name == "" {
        return Some(Invalid);
      }
      if exists k :: k in racks && !racks[k].deleted && racks[k].room == room && racks[k].code == code {
        return Some(DuplicateCode);
      }
      if racks[id].version != version {
        return Some(VersionConflict);
      }
      var center := rooms[room].center;
      var row := racks[id].(room := room, center := center, code := code, name := name, version := version + 1);
      racks := racks[id := row];
      MovedRackShows(old(State()), Request.MoveRack(id, version, target, code, name), State());
      error := None;
    }
  }
}
