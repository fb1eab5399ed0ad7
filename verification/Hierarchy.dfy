// Data centres, rooms and racks: the requests that create, edit, delete, copy and move them, each
// taken as one atomic step.

module Hierarchy {
  import opened Wrappers

  type Id = nat

  /** The descriptive fields of a row are kept together in `attrs`. */
  datatype Center = Center(code: string, name: string, status: string, attrs: string, version: nat, deleted: bool)

  datatype Room = Room(
    center: Id, code: string, name: string, status: string, attrs: string, version: nat, deleted: bool)

  /** A rack repeats the data centre of its room. */
  datatype Rack = Rack(room: Id, center: Id, code: string, name: string, attrs: string, version: nat, deleted: bool)

  datatype Tree = Tree(centers: map<Id, Center>, rooms: map<Id, Room>, racks: map<Id, Rack>)

  datatype Error = NotFound | TargetNotFound | ParentDisabled | DuplicateCode | Invalid | VersionConflict | HasChildren

  datatype Outcome = Done(tree: Tree) | Fail(error: Error)

  const EMPTY_TREE := Tree(map[], map[], map[])

  predicate LiveCenter(t: Tree, c: Id) {
    c in t.centers && !t.centers[c].deleted
  }

  predicate LiveRoom(t: Tree, r: Id) {
    r in t.rooms && !t.rooms[r].deleted
  }

  predicate LiveRack(t: Tree, k: Id) {
    k in t.racks && !t.racks[k].deleted
  }

  predicate RoomIn(t: Tree, r: Id, c: Id) {
    LiveRoom(t, r) && t.rooms[r].center == c
  }

  predicate RackIn(t: Tree, k: Id, r: Id) {
    LiveRack(t, k) && t.racks[k].room == r
  }

  predicate Closed(status: string) {
    status == "DISABLED" || status == "ARCHIVED"
  }

  // ----- well-formed trees -----

  ghost predicate ParentsLive(t: Tree) {
    && (forall r :: LiveRoom(t, r) ==> LiveCenter(t, t.rooms[r].center))
    && (forall k :: LiveRack(t, k) ==>
          LiveRoom(t, t.racks[k].room) && t.racks[k].center == t.rooms[t.racks[k].room].center)
  }

  ghost predicate CentersDistinct(t: Tree) {
    forall c, d :: LiveCenter(t, c) && LiveCenter(t, d) && t.centers[c].code == t.centers[d].code ==> c == d
  }

  ghost predicate RoomsDistinct(t: Tree) {
    forall r, s, c :: RoomIn(t, r, c) && RoomIn(t, s, c) && t.rooms[r].code == t.rooms[s].code ==> r == s
  }

  ghost predicate RacksDistinct(t: Tree) {
    forall k, l, r :: RackIn(t, k, r) && RackIn(t, l, r) && t.racks[k].code == t.racks[l].code ==> k == l
  }

  ghost predicate WellFormed(t: Tree) {
    ParentsLive(t) && CentersDistinct(t) && RoomsDistinct(t) && RacksDistinct(t)
  }

  // ----- code checks -----

  predicate CenterCodeTaken(t: Tree, code: string, besides: Option<Id>) {
    exists c :: c in t.centers && LiveCenter(t, c) && t.centers[c].code == code && Some(c) != besides
  }

  predicate RoomCodeTaken(t: Tree, center: Id, code: string, besides: Option<Id>) {
    exists r :: r in t.rooms && RoomIn(t, r, center) && t.rooms[r].code == code && Some(r) != besides
  }

  predicate RackCodeTaken(t: Tree, room: Id, code: string, besides: Option<Id>) {
    exists k :: k in t.racks && RackIn(t, k, room) && t.racks[k].code == code && Some(k) != besides
  }

  // ----- requests -----

  /** Codes and names come trimmed. New rows get `id`; a copied row `x` gets the identifier `mint[x]`. */
  datatype Request =
    | CreateCenter(id: Id, code: string, name: string, status: string, attrs: string)
    | UpdateCenter(id: Id, version: nat, code: string, name: string, status: string, attrs: string)
    | DeleteCenter(id: Id, version: nat)
    | CreateRoom(parent: Id, id: Id, code: string, name: string, status: string, attrs: string)
    | UpdateRoom(id: Id, version: nat, code: string, name: string, status: string, attrs: string)
    | DeleteRoom(id: Id, version: nat)
    | CreateRack(parent: Id, id: Id, code: string, name: string, attrs: string)
    | UpdateRack(id: Id, version: nat, code: string, name: string, attrs: string)
    | DeleteRack(id: Id, version: nat, inUse: bool)
    | CopyCenter(source: Id, version: nat, code: string, name: string, id: Id, mint: map<Id, Id>)
    | CopyRoom(source: Id, version: nat, target: Option<Id>, code: string, name: string, id: Id, mint: map<Id, Id>)
    | CopyRack(source: Id, version: nat, target: Option<Id>, code: string, name: string, id: Id)
    | MoveRoom(id: Id, version: nat, target: Option<Id>, code: string, name: string)
    | MoveRack(id: Id, version: nat, target: Option<Id>, code: string, name: string)

  /** The identifiers of the rows that a request adds are new, and unlike each other. */
  ghost predicate Fresh(t: Tree, r: Request) {
    match r
    case CreateCenter(id, _, _, _, _) => id !in t.centers
    case CreateRoom(_, id, _, _, _, _) => id !in t.rooms
    case CreateRack(_, id, _, _, _) => id !in t.racks
    case CopyCenter(_, _, _, _, id, mint) => id !in t.centers && Mints(t.rooms.Keys, mint) && Mints(t.racks.Keys, mint)
    case CopyRoom(_, _, _, _, _, id, mint) => id !in t.rooms && Mints(t.racks.Keys, mint)
    case CopyRack(_, _, _, _, _, id) => id !in t.racks
    case _ => true
  }

  ghost predicate Mints(ids: set<Id>, mint: map<Id, Id>) {
    && ids <= mint.Keys
    && (forall x, y :: x in ids && y in ids && mint[x] == mint[y] ==> x == y)
    && (forall x, y :: x in ids && y in ids ==> mint[x] != y)
  }

  function StatusOr(given: string, otherwise: string): string {
    if given == "" then otherwise else given
  }

  // ----- what each request does -----

  function NewCenter(t: Tree, r: Request): Outcome
    requires r.CreateCenter?
  {
    if r.code == "" || r.name == "" then Fail(Invalid)
    else if CenterCodeTaken(t, r.code, None) then Fail(DuplicateCode)
    else
      var status := StatusOr(r.status, "OPERATING");
      Done(t.(centers := t.centers[r.id := Center(r.code, r.name, status, r.attrs, 1, false)]))
  }

  function EditCenter(t: Tree, r: Request): Outcome
    requires r.UpdateCenter?
  {
    if !LiveCenter(t, r.id) then Fail(NotFound)
    else if CenterCodeTaken(t, r.code, Some(r.id)) then Fail(DuplicateCode)
    else if t.centers[r.id].version != r.version then Fail(VersionConflict)
    else
      var status := StatusOr(r.status, t.centers[r.id].status);
      Done(t.(centers := t.centers[r.id := Center(r.code, r.name, status, r.attrs, r.version + 1, false)]))
  }

  function EraseCenter(t: Tree, r: Request): Outcome
    requires r.DeleteCenter?
  {
    if !LiveCenter(t, r.id) then Fail(NotFound)
    else if exists m :: m in t.rooms && RoomIn(t, m, r.id) then Fail(HasChildren)
    else if t.centers[r.id].version != r.version then Fail(VersionConflict)
    else Done(t.(centers := t.centers[r.id := t.centers[r.id].(deleted := true, version := r.version + 1)]))
  }

  function NewRoom(t: Tree, r: Request): Outcome
    requires r.CreateRoom?
  {
    if !LiveCenter(t, r.parent) then Fail(NotFound)
    else if Closed(t.centers[r.parent].status) then Fail(ParentDisabled)
    else if r.code == "" || r.name == "" then Fail(Invalid)
    else if RoomCodeTaken(t, r.parent, r.code, None) then Fail(DuplicateCode)
    else
      var room := Room(r.parent, r.code, r.name, StatusOr(r.status, "OPERATING"), r.attrs, 1, false);
      Done(t.(rooms := t.rooms[r.id := room]))
  }

  function EditRoom(t: Tree, r: Request): Outcome
    requires r.UpdateRoom?
  {
    if !LiveRoom(t, r.id) then Fail(NotFound)
    else if RoomCodeTaken(t, t.rooms[r.id].center, r.code, Some(r.id)) then Fail(DuplicateCode)
    else if t.rooms[r.id].version != r.version then Fail(VersionConflict)
    else
      var room := t.rooms[r.id];
      Done(t.(rooms := t.rooms[r.id := Room(room.center, r.code, r.name, StatusOr(r.status, room.status), r.attrs,
                                            r.version + 1, false)]))
  }

  function EraseRoom(t: Tree, r: Request): Outcome
    requires r.DeleteRoom?
  {
    if !LiveRoom(t, r.id) then Fail(NotFound)
    else if exists k :: k in t.racks && RackIn(t, k, r.id) then Fail(HasChildren)
    else if t.rooms[r.id].version != r.version then Fail(VersionConflict)
    else Done(t.(rooms := t.rooms[r.id := t.rooms[r.id].(deleted := true, version := r.version + 1)]))
  }

  function NewRack(t: Tree, r: Request): Outcome
    requires r.CreateRack?
  {
    if !LiveRoom(t, r.parent) then Fail(NotFound)
    else if Closed(t.rooms[r.parent].status) then Fail(ParentDisabled)
    else if r.code == "" || r.name == "" then Fail(Invalid)
    else if RackCodeTaken(t, r.parent, r.code, None) then Fail(DuplicateCode)
    else
      var rack := Rack(r.parent, t.rooms[r.parent].center, r.code, r.name, r.attrs, 1, false);
      Done(t.(racks := t.racks[r.id := rack]))
  }

  function EditRack(t: Tree, r: Request): Outcome
    requires r.UpdateRack?
  {
    if !LiveRack(t, r.id) || !LiveRoom(t, t.racks[r.id].room) then Fail(NotFound)
    else if RackCodeTaken(t, t.racks[r.id].room, r.code, Some(r.id)) then Fail(DuplicateCode)
    else if t.racks[r.id].version != r.version then Fail(VersionConflict)
    else Done(t.(racks := t.racks[r.id := t.racks[r.id].(code := r.code, name := r.name, attrs := r.attrs,
                                                       version := r.version + 1)]))
  }

  function EraseRack(t: Tree, r: Request): Outcome
    requires r.DeleteRack?
  {
    if !LiveRack(t, r.id) then Fail(NotFound)
    else if r.inUse then Fail(HasChildren)
    else if t.racks[r.id].version != r.version then Fail(VersionConflict)
    else Done(t.(racks := t.racks[r.id := t.racks[r.id].(deleted := true, version := r.version + 1)]))
  }

  /** A body version of 0 means that the client sent none. */
  predicate CopyStale(current: nat, version: nat) {
    version > 0 && version != current
  }

  function CenterCopy(center: Center, code: string, name: string): Center {
    center.(code := code, name := name, version := 1)
  }

  function RoomCopy(room: Room, center: Id): Room {
    room.(center := center, version := 1)
  }

  function RackCopy(rack: Rack, room: Id, center: Id): Rack {
    rack.(room := room, center := center, version := 1)
  }

  ghost function RoomsOf(t: Tree, center: Id): set<Id> {
    set r | r in t.rooms && RoomIn(t, r, center)
  }

  /** The copies of the rooms of `source`, in `center`. */
  ghost function RoomCopies(t: Tree, source: Id, center: Id, mint: map<Id, Id>): map<Id, Room>
    requires Mints(t.rooms.Keys, mint)
  {
    map m | m in t.rooms && RoomIn(t, m, source) :: mint[m] := RoomCopy(t.rooms[m], center)
  }

  /** The copies of the racks of the rooms `rooms`, each in the copy of its room. */
  ghost function RackCopies(t: Tree, rooms: set<Id>, home: map<Id, Id>, center: Id, mint: map<Id, Id>): map<Id, Rack>
    requires Mints(t.racks.Keys, mint) && rooms <= home.Keys
  {
    map k | k in t.racks && LiveRack(t, k) && t.racks[k].room in rooms ::
      mint[k] := RackCopy(t.racks[k], home[t.racks[k].room], center)
  }

  /** The tree with a copy of a data centre, its rooms and their racks. */
  ghost function WithCenterCopy(t: Tree, source: Id, row: Center, id: Id, mint: map<Id, Id>): Tree
    requires Mints(t.rooms.Keys, mint) && Mints(t.racks.Keys, mint)
  {
    Tree(t.centers[id := row], t.rooms + RoomCopies(t, source, id, mint),
         t.racks + RackCopies(t, RoomsOf(t, source), mint, id, mint))
  }

  ghost function DupCenter(t: Tree, r: Request): Outcome
    requires r.CopyCenter? && Fresh(t, r)
  {
    if !LiveCenter(t, r.source) then Fail(NotFound)
    else if CopyStale(t.centers[r.source].version, r.version) then Fail(VersionConflict)
    else if CenterCodeTaken(t, r.code, None) then Fail(DuplicateCode)
    else Done(WithCenterCopy(t, r.source, CenterCopy(t.centers[r.source], r.code, r.name), r.id, r.mint))
  }

  function TargetOr(given: Option<Id>, otherwise: Id): Id {
    if given.Some? then given.value else otherwise
  }

  /** The tree with a copy of a room and its racks. */
  ghost function WithRoomCopy(t: Tree, source: Id, row: Room, id: Id, mint: map<Id, Id>): Tree
    requires Mints(t.racks.Keys, mint)
  {
    t.(rooms := t.rooms[id := row], racks := t.racks + RackCopies(t, {source}, map[source := id], row.center, mint))
  }

  ghost function DupRoom(t: Tree, r: Request): Outcome
    requires r.CopyRoom? && Fresh(t, r)
  {
    if !LiveRoom(t, r.source) then Fail(NotFound)
    else if CopyStale(t.rooms[r.source].version, r.version) then Fail(VersionConflict)
    else
      var target := TargetOr(r.target, t.rooms[r.source].center);
      if !LiveCenter(t, target) then Fail(TargetNotFound)
      else if Closed(t.centers[target].status) then Fail(ParentDisabled)
      else if RoomCodeTaken(t, target, r.code, None) then Fail(DuplicateCode)
      else
        var row := RoomCopy(t.rooms[r.source], target).(code := r.code, name := r.name);
        Done(WithRoomCopy(t, r.source, row, r.id, r.mint))
  }

  function DupRack(t: Tree, r: Request): Outcome
    requires r.CopyRack?
  {
    if !LiveRack(t, r.source) then Fail(NotFound)
    else if CopyStale(t.racks[r.source].version, r.version) then Fail(VersionConflict)
    else
      var target := TargetOr(r.target, t.racks[r.source].room);
      if !LiveRoom(t, target) then Fail(TargetNotFound)
      else if Closed(t.rooms[target].status) then Fail(ParentDisabled)
      else if RackCodeTaken(t, target, r.code, None) then Fail(DuplicateCode)
      else
        var rack := RackCopy(t.racks[r.source], target, t.rooms[target].center).(code := r.code, name := r.name);
        Done(t.(racks := t.racks[r.id := rack]))
  }

  /** The racks after one of their rooms has gone to another data centre. */
  function Rehomed(racks: map<Id, Rack>, room: Id, center: Id): map<Id, Rack> {
    map k | k in racks :: if racks[k].room == room && !racks[k].deleted then racks[k].(center := center) else racks[k]
  }

  function ShiftRoom(t: Tree, r: Request): Outcome
    requires r.MoveRoom?
  {
    if !LiveRoom(t, r.id) then Fail(NotFound)
    else if r.version != 0 && r.version != t.rooms[r.id].version then Fail(VersionConflict)
    else if r.target.None? || t.rooms[r.id].center == r.target.value then Fail(Invalid)
    else if !LiveCenter(t, r.target.value) then Fail(TargetNotFound)
    else if Closed(t.centers[r.target.value].status) then Fail(ParentDisabled)
    else if r.code == "" || r.name == "" then Fail(Invalid)
    else if RoomCodeTaken(t, r.target.value, r.code, None) then Fail(DuplicateCode)
    else if t.rooms[r.id].version != r.version then Fail(VersionConflict)
    else
      var room := t.rooms[r.id].(center := r.target.value, code := r.code, name := r.name, version := r.version + 1);
      Done(t.(rooms := t.rooms[r.id := room], racks := Rehomed(t.racks, r.id, r.target.value)))
  }

  function ShiftRack(t: Tree, r: Request): Outcome
    requires r.MoveRack?
  {
    if !LiveRack(t, r.id) then Fail(NotFound)
    else if r.version != 0 && r.version != t.racks[r.id].version then Fail(VersionConflict)
    else if r.target.None? || t.racks[r.id].room == r.target.value then Fail(Invalid)
    else if !LiveRoom(t, r.target.value) then Fail(TargetNotFound)
    else if Closed(t.rooms[r.target.value].status) then Fail(ParentDisabled)
    else if r.code == "" || r.name == "" then Fail(Invalid)
    else if RackCodeTaken(t, r.target.value, r.code, None) then Fail(DuplicateCode)
    else if t.racks[r.id].version != r.version then Fail(VersionConflict)
    else
      var center := t.rooms[r.target.value].center;
      var rack := t.racks[r.id].(room := r.target.value, center := center, code := r.code, name := r.name,
                                 version := r.version + 1);
      Done(t.(racks := t.racks[r.id := rack]))
  }

  ghost function Apply(t: Tree, r: Request): Outcome
    requires Fresh(t, r)
  {
    match r
    case CreateCenter(_, _, _, _, _) => NewCenter(t, r)
    case UpdateCenter(_, _, _, _, _, _) => EditCenter(t, r)
    case DeleteCenter(_, _) => EraseCenter(t, r)
    case CreateRoom(_, _, _, _, _, _) => NewRoom(t, r)
    case UpdateRoom(_, _, _, _, _, _) => EditRoom(t, r)
    case DeleteRoom(_, _) => EraseRoom(t, r)
    case CreateRack(_, _, _, _, _) => NewRack(t, r)
    case UpdateRack(_, _, _, _, _) => EditRack(t, r)
    case DeleteRack(_, _, _) => EraseRack(t, r)
    case CopyCenter(_, _, _, _, _, _) => DupCenter(t, r)
    case CopyRoom(_, _, _, _, _, _, _) => DupRoom(t, r)
    case CopyRack(_, _, _, _, _, _) => DupRack(t, r)
    case MoveRoom(_, _, _, _, _) => ShiftRoom(t, r)
    case MoveRack(_, _, _, _, _) => ShiftRack(t, r)
  }
}
