// When each hierarchy request succeeds, what it leaves and why it is refused, read off the rows alone.

module HierarchyOutcomes {
  import opened Wrappers
  import opened Hierarchy
  import opened HierarchyProofs

  // ----- what the rows show -----

  ghost predicate OnlyRow<V>(before: map<Id, V>, after: map<Id, V>, id: Id) {
    forall x :: x != id ==> (x in after <==> x in before) && (x in before && x in after ==> after[x] == before[x])
  }

  /** A live data centre, other than `besides`, has the code. */
  ghost predicate CenterHas(t: Tree, code: string, besides: Option<Id>) {
    exists c :: c in t.centers && !t.centers[c].deleted && t.centers[c].code == code && besides != Some(c)
  }

  ghost predicate RoomHas(t: Tree, center: Id, code: string, besides: Option<Id>) {
    exists m :: m in t.rooms && !t.rooms[m].deleted && t.rooms[m].center == center && t.rooms[m].code == code
                && besides != Some(m)
  }

  ghost predicate RackHas(t: Tree, room: Id, code: string, besides: Option<Id>) {
    exists k :: k in t.racks && !t.racks[k].deleted && t.racks[k].room == room && t.racks[k].code == code
                && besides != Some(k)
  }

  /** The data centre takes new rooms. */
  ghost predicate CenterOpen(t: Tree, c: Id) {
    c in t.centers && !t.centers[c].deleted && t.centers[c].status !in {"DISABLED", "ARCHIVED"}
  }

  ghost predicate RoomOpen(t: Tree, m: Id) {
    m in t.rooms && !t.rooms[m].deleted && t.rooms[m].status !in {"DISABLED", "ARCHIVED"}
  }

  // ----- when a request succeeds -----

  ghost predicate Succeeds(t: Tree, r: Request) {
    match r
    case CreateCenter(_, code, name, _, _) => code != "" && name != "" && !CenterHas(t, code, None)
    case UpdateCenter(id, version, code, _, _, _) =>
      && id in t.centers && !t.centers[id].deleted && t.centers[id].version == version
      && !CenterHas(t, code, Some(id))
    case DeleteCenter(id, version) =>
      && id in t.centers && !t.centers[id].deleted && t.centers[id].version == version
      && forall m :: m in t.rooms && !t.rooms[m].deleted ==> t.rooms[m].center != id
    case CreateRoom(parent, _, code, name, _, _) =>
      CenterOpen(t, parent) && code != "" && name != "" && !RoomHas(t, parent, code, None)
    case UpdateRoom(id, version, code, _, _, _) =>
      && id in t.rooms && !t.rooms[id].deleted && t.rooms[id].version == version
      && !RoomHas(t, t.rooms[id].center, code, Some(id))
    case DeleteRoom(id, version) =>
      && id in t.rooms && !t.rooms[id].deleted && t.rooms[id].version == version
      && forall k :: k in t.racks && !t.racks[k].deleted ==> t.racks[k].room != id
    case CreateRack(parent, _, code, name, _) =>
      RoomOpen(t, parent) && code != "" && name != "" && !RackHas(t, parent, code, None)
    case UpdateRack(id, version, code, _, _) =>
      && id in t.racks && !t.racks[id].deleted && t.racks[id].version == version
      && !RackHas(t, t.racks[id].room, code, Some(id))
    case DeleteRack(id, version, inUse) =>
      id in t.racks && !t.racks[id].deleted && t.racks[id].version == version && !inUse
    case CopyCenter(source, version, code, _, _, _) =>
      && source in t.centers && !t.centers[source].deleted && version in {0, t.centers[source].version}
      && !CenterHas(t, code, None)
    case CopyRoom(source, version, target, code, _, _, _) =>
      && source in t.rooms && !t.rooms[source].deleted && version in {0, t.rooms[source].version}
      && var center := if target.Some? then target.value else t.rooms[source].center;
         CenterOpen(t, center) && !RoomHas(t, center, code, None)
    case CopyRack(source, version, target, code, _, _) =>
      && source in t.racks && !t.racks[source].deleted && version in {0, t.racks[source].version}
      && var room := if target.Some? then target.value else t.racks[source].room;
         RoomOpen(t, room) && !RackHas(t, room, code, None)
    case MoveRoom(id, version, target, code, name) =>
      && id in t.rooms && !t.rooms[id].deleted && t.rooms[id].version == version && code != "" && name != ""
      && target.Some? && target.value != t.rooms[id].center && CenterOpen(t, target.value)
      && !RoomHas(t, target.value, code, None)
    case MoveRack(id, version, target, code, name) =>
      && id in t.racks && !t.racks[id].deleted && t.racks[id].version == version && code != "" && name != ""
      && target.Some? && target.value != t.racks[id].room && RoomOpen(t, target.value)
      && !RackHas(t, target.value, code, None)
  }

  // ----- what a request leaves -----

  ghost predicate CenterLeft(t: Tree, t': Tree, id: Id, row: Center) {
    t' == t.(centers := t'.centers) && OnlyRow(t.centers, t'.centers, id) && id in t'.centers && t'.centers[id] == row
  }

  ghost predicate RoomLeft(t: Tree, t': Tree, id: Id, row: Room) {
    t' == t.(rooms := t'.rooms) && OnlyRow(t.rooms, t'.rooms, id) && id in t'.rooms && t'.rooms[id] == row
  }

  ghost predicate RackLeft(t: Tree, t': Tree, id: Id, row: Rack) {
    t' == t.(racks := t'.racks) && OnlyRow(t.racks, t'.racks, id) && id in t'.racks && t'.racks[id] == row
  }

  ghost function LiveRooms(t: Tree, center: Id): set<Id> {
    set m | m in t.rooms && !t.rooms[m].deleted && t.rooms[m].center == center
  }

  /** The rows that were there are untouched. */
  ghost predicate OnlyMore<V>(before: map<Id, V>, after: map<Id, V>) {
    forall x :: x in before ==> x in after && after[x] == before[x]
  }

  /** Each live rack of the rooms has its copy, in the copy of its room, and no other rack is new. */
  ghost predicate RacksCopied(t: Tree, t': Tree, rooms: set<Id>, home: map<Id, Id>, center: Id, mint: map<Id, Id>) {
    && OnlyMore(t.racks, t'.racks)
    && (forall k :: k in t.racks && !t.racks[k].deleted && t.racks[k].room in rooms ==>
          && k in mint && t.racks[k].room in home && mint[k] in t'.racks
          && t'.racks[mint[k]] ==
               Rack(home[t.racks[k].room], center, t.racks[k].code, t.racks[k].name, t.racks[k].attrs, 1, false))
    && (forall y :: y in t'.racks && y !in t.racks ==>
          exists k :: k in t.racks && !t.racks[k].deleted && t.racks[k].room in rooms && k in mint && mint[k] == y)
  }

  ghost predicate RoomsCopied(t: Tree, t': Tree, source: Id, center: Id, mint: map<Id, Id>) {
    && OnlyMore(t.rooms, t'.rooms)
    && (forall m :: m in t.rooms && !t.rooms[m].deleted && t.rooms[m].center == source ==>
          && m in mint && mint[m] in t'.rooms
          && t'.rooms[mint[m]] ==
               Room(center, t.rooms[m].code, t.rooms[m].name, t.rooms[m].status, t.rooms[m].attrs, 1, false))
    && (forall y :: y in t'.rooms && y !in t.rooms ==>
          exists m :: m in t.rooms && !t.rooms[m].deleted && t.rooms[m].center == source && m in mint && mint[m] == y)
  }

  ghost predicate Leaves(t: Tree, r: Request, t': Tree) {
    match r
    case CreateCenter(id, code, name, status, attrs) =>
      CenterLeft(t, t', id, Center(code, name, if status == "" then "OPERATING" else status, attrs, 1, false))
    case UpdateCenter(id, version, code, name, status, attrs) =>
      && id in t.centers
      && CenterLeft(t, t', id, Center(code, name, if status == "" then t.centers[id].status else status, attrs,
                                      version + 1, false))
    case DeleteCenter(id, version) =>
      && id in t.centers
      && var row := t.centers[id];
         CenterLeft(t, t', id, Center(row.code, row.name, row.status, row.attrs, version + 1, true))
    case CreateRoom(parent, id, code, name, status, attrs) =>
      RoomLeft(t, t', id, Room(parent, code, name, if status == "" then "OPERATING" else status, attrs, 1, false))
    case UpdateRoom(id, version, code, name, status, attrs) =>
      && id in t.rooms
      && RoomLeft(t, t', id, Room(t.rooms[id].center, code, name, if status == "" then t.rooms[id].status else status,
                                  attrs, version + 1, false))
    case DeleteRoom(id, version) =>
      && id in t.rooms
      && var row := t.rooms[id];
         RoomLeft(t, t', id, Room(row.center, row.code, row.name, row.status, row.attrs, version + 1, true))
    case CreateRack(parent, id, code, name, attrs) =>
      parent in t.rooms && RackLeft(t, t', id, Rack(parent, t.rooms[parent].center, code, name, attrs, 1, false))
    case UpdateRack(id, version, code, name, attrs) =>
      && id in t.racks
      && RackLeft(t, t', id, Rack(t.racks[id].room, t.racks[id].center, code, name, attrs, version + 1, false))
    case DeleteRack(id, version, _) =>
      && id in t.racks
      && var row := t.racks[id];
         RackLeft(t, t', id, Rack(row.room, row.center, row.code, row.name, row.attrs, version + 1, true))
    case CopyCenter(source, _, code, name, id, mint) =>
      && source in t.centers && OnlyRow(t.centers, t'.centers, id) && id in t'.centers
      && t'.centers[id] == Center(code, name, t.centers[source].status, t.centers[source].attrs, 1, false)
      && RoomsCopied(t, t', source, id, mint)
      && RacksCopied(t, t', LiveRooms(t, source), mint, id, mint)
    case CopyRoom(source, _, target, code, name, id, mint) =>
      && source in t.rooms && t'.centers == t.centers && OnlyRow(t.rooms, t'.rooms, id) && id in t'.rooms
      && var center := if target.Some? then target.value else t.rooms[source].center;
         && t'.rooms[id] == Room(center, code, name, t.rooms[source].status, t.rooms[source].attrs, 1, false)
         && RacksCopied(t, t', {source}, map[source := id], center, mint)
    case CopyRack(source, _, target, code, name, id) =>
      && source in t.racks
      && var room := if target.Some? then target.value else t.racks[source].room;
         && room in t.rooms
         && RackLeft(t, t', id, Rack(room, t.rooms[room].center, code, name, t.racks[source].attrs, 1, false))
    case MoveRoom(id, version, target, code, name) =>
      && id in t.rooms && target.Some? && t'.centers == t.centers
      && OnlyRow(t.rooms, t'.rooms, id) && id in t'.rooms
      && t'.rooms[id] ==
           Room(target.value, code, name, t.rooms[id].status, t.rooms[id].attrs, version + 1, false)
      && t'.racks.Keys == t.racks.Keys
      && forall k :: k in t.racks && k in t'.racks ==>
           t'.racks[k] == if t.racks[k].room == id && !t.racks[k].deleted then t.racks[k].(center := target.value)
                          else t.racks[k]
    case MoveRack(id, version, target, code, name) =>
      && id in t.racks && target.Some? && target.value in t.rooms
      && RackLeft(t, t', id, Rack(target.value, t.rooms[target.value].center, code, name, t.racks[id].attrs,
                                  version + 1, false))
  }

  // ----- why a request is refused -----

  /** The version that a request sends for a live row is not the row's. */
  ghost predicate Outdated(t: Tree, r: Request) {
    match r
    case UpdateCenter(id, version, _, _, _, _) => id in t.centers && t.centers[id].version != version
    case DeleteCenter(id, version) => id in t.centers && t.centers[id].version != version
    case UpdateRoom(id, version, _, _, _, _) => id in t.rooms && t.rooms[id].version != version
    case DeleteRoom(id, version) => id in t.rooms && t.rooms[id].version != version
    case UpdateRack(id, version, _, _, _) => id in t.racks && t.racks[id].version != version
    case DeleteRack(id, version, _) => id in t.racks && t.racks[id].version != version
    case CopyCenter(source, version, _, _, _, _) => source in t.centers && version !in {0, t.centers[source].version}
    case CopyRoom(source, version, _, _, _, _, _) => source in t.rooms && version !in {0, t.rooms[source].version}
    case CopyRack(source, version, _, _, _, _) => source in t.racks && version !in {0, t.racks[source].version}
    case MoveRoom(id, version, _, _, _) => id in t.rooms && t.rooms[id].version != version
    case MoveRack(id, version, _, _, _) => id in t.racks && t.racks[id].version != version
    case _ => false
  }

  /** The row that a request is about, or the parent of the row it creates, is missing or deleted. */
  ghost predicate Gone(t: Tree, r: Request) {
    match r
    case CreateCenter(_, _, _, _, _) => false
    case UpdateCenter(id, _, _, _, _, _) => id in t.centers ==> t.centers[id].deleted
    case DeleteCenter(id, _) => id in t.centers ==> t.centers[id].deleted
    case CreateRoom(parent, _, _, _, _, _) => parent in t.centers ==> t.centers[parent].deleted
    case UpdateRoom(id, _, _, _, _, _) => id in t.rooms ==> t.rooms[id].deleted
    case DeleteRoom(id, _) => id in t.rooms ==> t.rooms[id].deleted
    case CreateRack(parent, _, _, _, _) => parent in t.rooms ==> t.rooms[parent].deleted
    case UpdateRack(id, _, _, _, _) => id in t.racks ==> t.racks[id].deleted
    case DeleteRack(id, _, _) => id in t.racks ==> t.racks[id].deleted
    case CopyCenter(source, _, _, _, _, _) => source in t.centers ==> t.centers[source].deleted
    case CopyRoom(source, _, _, _, _, _, _) => source in t.rooms ==> t.rooms[source].deleted
    case CopyRack(source, _, _, _, _, _) => source in t.racks ==> t.racks[source].deleted
    case MoveRoom(id, _, _, _, _) => id in t.rooms ==> t.rooms[id].deleted
    case MoveRack(id, _, _, _, _) => id in t.racks ==> t.racks[id].deleted
  }

  /** The parent that the row is to have. */
  ghost function Parent(t: Tree, r: Request): Option<Id> {
    match r
    case CreateRoom(parent, _, _, _, _, _) => Some(parent)
    case CreateRack(parent, _, _, _, _) => Some(parent)
    case CopyRoom(source, _, target, _, _, _, _) =>
      if target.Some? then target else if source in t.rooms then Some(t.rooms[source].center) else None
    case CopyRack(source, _, target, _, _, _) =>
      if target.Some? then target else if source in t.racks then Some(t.racks[source].room) else None
    case MoveRoom(_, _, target, _, _) => target
    case MoveRack(_, _, target, _, _) => target
    case UpdateRoom(id, _, _, _, _, _) => if id in t.rooms then Some(t.rooms[id].center) else None
    case UpdateRack(id, _, _, _, _) => if id in t.racks then Some(t.racks[id].room) else None
    case _ => None
  }

  predicate AboutRoom(r: Request) {
    r.CreateRoom? || r.UpdateRoom? || r.CopyRoom? || r.MoveRoom?
  }

  predicate AboutRack(r: Request) {
    r.CreateRack? || r.UpdateRack? || r.CopyRack? || r.MoveRack?
  }

  /** The reason given for refusing a request is one. */
  ghost predicate Refused(t: Tree, r: Request, error: Error) {
    match error
    case NotFound => Gone(t, r)
    case TargetNotFound =>
      && (r.CopyRoom? || r.MoveRoom? || r.CopyRack? || r.MoveRack?) && Parent(t, r).Some?
      && var p := Parent(t, r).value;
         if AboutRoom(r) then p in t.centers ==> t.centers[p].deleted else p in t.rooms ==> t.rooms[p].deleted
    case ParentDisabled =>
      && Parent(t, r).Some?
      && var p := Parent(t, r).value;
         if AboutRoom(r) then p in t.centers && t.centers[p].status in {"DISABLED", "ARCHIVED"}
         else AboutRack(r) && p in t.rooms && t.rooms[p].status in {"DISABLED", "ARCHIVED"}
    case DuplicateCode =>
      if r.CreateCenter? || r.CopyCenter? then CenterHas(t, r.code, None)
      else if r.UpdateCenter? then CenterHas(t, r.code, Some(r.id))
      else
        && Parent(t, r).Some?
        && (if AboutRoom(r) then RoomHas(t, Parent(t, r).value, r.code, if r.UpdateRoom? then Some(r.id) else None)
            else AboutRack(r) && RackHas(t, Parent(t, r).value, r.code, if r.UpdateRack? then Some(r.id) else None))
    case Invalid =>
      || ((r.CreateCenter? || r.CreateRoom? || r.CreateRack? || r.MoveRoom? || r.MoveRack?)
          && (r.code == "" || r.name == ""))
      || (r.MoveRoom? && (r.target == None || (r.id in t.rooms && r.target == Some(t.rooms[r.id].center))))
      || (r.MoveRack? && (r.target == None || (r.id in t.racks && r.target == Some(t.racks[r.id].room))))
    case VersionConflict => Outdated(t, r)
    case HasChildren =>
      || (r.DeleteCenter? && exists m :: m in t.rooms && !t.rooms[m].deleted && t.rooms[m].center == r.id)
      || (r.DeleteRoom? && exists k :: k in t.racks && !t.racks[k].deleted && t.racks[k].room == r.id)
      || (r.DeleteRack? && r.inUse)
  }

  // ----- the proofs -----

  lemma TakenMeans(t: Tree, parent: Id, code: string, besides: Option<Id>)
    ensures CenterHas(t, code, besides) <==> CenterCodeTaken(t, code, besides)
    ensures RoomHas(t, parent, code, besides) <==> RoomCodeTaken(t, parent, code, besides)
    ensures RackHas(t, parent, code, besides) <==> RackCodeTaken(t, parent, code, besides)
  {
  }

  lemma CenterOutcome(t: Tree, r: Request)
    requires (r.CreateCenter? || r.UpdateCenter? || r.DeleteCenter?) && Fresh(t, r)
    ensures Apply(t, r).Done? <==> Succeeds(t, r)
    ensures Apply(t, r).Done? ==> Leaves(t, r, Apply(t, r).tree)
    ensures Apply(t, r).Fail? ==> Refused(t, r, Apply(t, r).error)
  {
    if !r.DeleteCenter? {
      TakenMeans(t, 0, r.code, if r.UpdateCenter? then Some(r.id) else None);
    }
    hide CenterHas, CenterCodeTaken;
  }

  lemma RoomOutcome(t: Tree, r: Request)
    requires (r.CreateRoom? || r.UpdateRoom? || r.DeleteRoom?) && Fresh(t, r)
    ensures Apply(t, r).Done? <==> Succeeds(t, r)
    ensures Apply(t, r).Done? ==> Leaves(t, r, Apply(t, r).tree)
    ensures Apply(t, r).Fail? ==> Refused(t, r, Apply(t, r).error)
  {
    if r.CreateRoom? {
      TakenMeans(t, r.parent, r.code, None);
    } else if r.UpdateRoom? && r.id in t.rooms {
      TakenMeans(t, t.rooms[r.id].center, r.code, Some(r.id));
    }
    hide RoomHas, RoomCodeTaken;
  }

  lemma LiveRackHasRoom(t: Tree, k: Id)
    requires WellFormed(t) && k in t.racks && !t.racks[k].deleted
    ensures LiveRoom(t, t.racks[k].room)
  {
    assert LiveRack(t, k);
  }

  lemma RackOutcome(t: Tree, r: Request)
    requires WellFormed(t) && (r.CreateRack? || r.UpdateRack? || r.DeleteRack?) && Fresh(t, r)
    ensures Apply(t, r).Done? <==> Succeeds(t, r)
    ensures Apply(t, r).Done? ==> Leaves(t, r, Apply(t, r).tree)
    ensures Apply(t, r).Fail? ==> Refused(t, r, Apply(t, r).error)
  {
    hide WellFormed;
    if r.CreateRack? {
      TakenMeans(t, r.parent, r.code, None);
    } else if r.id in t.racks && !t.racks[r.id].deleted {
      LiveRackHasRoom(t, r.id);
      if r.UpdateRack? {
        TakenMeans(t, t.racks[r.id].room, r.code, Some(r.id));
      }
    }
    hide RackHas, RackCodeTaken;
  }

  lemma CopyRackOutcome(t: Tree, r: Request)
    requires r.CopyRack? || r.MoveRack?
    ensures var outcome := if r.CopyRack? then DupRack(t, r) else ShiftRack(t, r);
            && (outcome.Done? <==> Succeeds(t, r))
            && (outcome.Done? ==> Leaves(t, r, outcome.tree))
            && (outcome.Fail? ==> Refused(t, r, outcome.error))
  {
    if Parent(t, r).Some? {
      TakenMeans(t, Parent(t, r).value, r.code, None);
    }
    hide RackHas, RackCodeTaken;
  }

  lemma MoveRoomOutcome(t: Tree, r: Request)
    requires r.MoveRoom?
    ensures ShiftRoom(t, r).Done? <==> Succeeds(t, r)
    ensures ShiftRoom(t, r).Done? ==> Leaves(t, r, ShiftRoom(t, r).tree)
    ensures ShiftRoom(t, r).Fail? ==> Refused(t, r, ShiftRoom(t, r).error)
  {
    if r.target.Some? {
      TakenMeans(t, r.target.value, r.code, None);
    }
    hide RoomHas, RoomCodeTaken;
  }

  lemma RackCopiesMade(t: Tree, t': Tree, rooms: set<Id>, home: map<Id, Id>, center: Id, mint: map<Id, Id>)
    requires Mints(t.racks.Keys, mint) && rooms <= home.Keys
    requires t'.racks == t.racks + RackCopies(t, rooms, home, center, mint)
    ensures RacksCopied(t, t', rooms, home, center, mint)
  {
    var copies := RackCopies(t, rooms, home, center, mint);
    forall k | k in t.racks && !t.racks[k].deleted && t.racks[k].room in rooms
      ensures mint[k] in copies && copies[mint[k]] == RackCopy(t.racks[k], home[t.racks[k].room], center)
    {
      assert LiveRack(t, k);
    }
    forall y | y in t'.racks && y !in t.racks
      ensures exists k :: k in t.racks && !t.racks[k].deleted && t.racks[k].room in rooms && k in mint && mint[k] == y
    {
      var k := RackOrigin(t, rooms, home, center, mint, y);
    }
  }

  lemma RoomCopiesMade(t: Tree, t': Tree, source: Id, center: Id, mint: map<Id, Id>)
    requires Mints(t.rooms.Keys, mint) && t'.rooms == t.rooms + RoomCopies(t, source, center, mint)
    ensures RoomsCopied(t, t', source, center, mint)
  {
    var copies := RoomCopies(t, source, center, mint);
    forall m | m in t.rooms && !t.rooms[m].deleted && t.rooms[m].center == source
      ensures mint[m] in copies && copies[mint[m]] == RoomCopy(t.rooms[m], center)
    {
      assert RoomIn(t, m, source);
    }
    forall y | y in t'.rooms && y !in t.rooms
      ensures exists m :: m in t.rooms && !t.rooms[m].deleted && t.rooms[m].center == source && m in mint
                          && mint[m] == y
    {
      var m := RoomOrigin(t, source, center, mint, y);
    }
  }

  lemma CopyAccepted(t: Tree, r: Request)
    requires (r.CopyCenter? || r.CopyRoom?) && Fresh(t, r)
    ensures Apply(t, r).Done? <==> Succeeds(t, r)
    ensures Apply(t, r).Fail? ==> Refused(t, r, Apply(t, r).error)
  {
    TakenMeans(t, 0, r.code, None);
    if Parent(t, r).Some? {
      TakenMeans(t, Parent(t, r).value, r.code, None);
    }
    hide CenterHas, CenterCodeTaken, RoomHas, RoomCodeTaken, WithCenterCopy, WithRoomCopy, Mints;
  }

  lemma CenterCopyShows(t: Tree, r: Request)
    requires r.CopyCenter? && Fresh(t, r) && DupCenter(t, r).Done?
    ensures r.source in t.centers && Mints(t.rooms.Keys, r.mint) && Mints(t.racks.Keys, r.mint)
    ensures DupCenter(t, r).tree.rooms == t.rooms + RoomCopies(t, r.source, r.id, r.mint)
    ensures DupCenter(t, r).tree.racks == t.racks + RackCopies(t, RoomsOf(t, r.source), r.mint, r.id, r.mint)
    ensures DupCenter(t, r).tree.centers ==
            t.centers[r.id := Center(r.code, r.name, t.centers[r.source].status, t.centers[r.source].attrs, 1, false)]
    ensures RoomsOf(t, r.source) == LiveRooms(t, r.source)
  {
    hide CenterCodeTaken, Mints, RoomCopies, RackCopies;
  }

  lemma CopyCenterLeaves(t: Tree, r: Request)
    requires r.CopyCenter? && Fresh(t, r) && DupCenter(t, r).Done?
    ensures Leaves(t, r, DupCenter(t, r).tree)
  {
    hide DupCenter, Fresh, Mints, RoomCopies, RackCopies, RacksCopied, RoomsCopied, RoomsOf;
    CenterCopyShows(t, r);
    var t' := DupCenter(t, r).tree;
    RoomCopiesMade(t, t', r.source, r.id, r.mint);
    RackCopiesMade(t, t', RoomsOf(t, r.source), r.mint, r.id, r.mint);
  }

  lemma CopyCenterOutcome(t: Tree, r: Request)
    requires r.CopyCenter? && Fresh(t, r)
    ensures DupCenter(t, r).Done? <==> Succeeds(t, r)
    ensures DupCenter(t, r).Done? ==> Leaves(t, r, DupCenter(t, r).tree)
    ensures DupCenter(t, r).Fail? ==> Refused(t, r, DupCenter(t, r).error)
  {
    hide Fresh, Succeeds, Leaves, Refused, DupCenter;
    CopyAccepted(t, r);
    if DupCenter(t, r).Done? {
      CopyCenterLeaves(t, r);
    }
  }

  lemma CopyRoomLeaves(t: Tree, r: Request)
    requires r.CopyRoom? && Fresh(t, r) && DupRoom(t, r).Done?
    ensures Leaves(t, r, DupRoom(t, r).tree)
  {
    hide DupRoom, Fresh, Mints, RackCopies, RacksCopied;
    RoomCopyShows(t, r);
    var center := if r.target.Some? then r.target.value else t.rooms[r.source].center;
    RackCopiesMade(t, DupRoom(t, r).tree, {r.source}, map[r.source := r.id], center, r.mint);
  }

  lemma RoomCopyShows(t: Tree, r: Request)
    requires r.CopyRoom? && Fresh(t, r) && DupRoom(t, r).Done?
    ensures r.source in t.rooms && Mints(t.racks.Keys, r.mint) && DupRoom(t, r).tree.centers == t.centers
    ensures var center := if r.target.Some? then r.target.value else t.rooms[r.source].center;
            var was := t.rooms[r.source];
            && DupRoom(t, r).tree.rooms ==
                 t.rooms[r.id := Room(center, r.code, r.name, was.status, was.attrs, 1, false)]
            && DupRoom(t, r).tree.racks ==
                 t.racks + RackCopies(t, {r.source}, map[r.source := r.id], center, r.mint)
  {
    hide RoomCodeTaken, Mints, RackCopies;
  }

  /** Each request succeeds exactly when the rows say so, leaves exactly what it names, and is refused for a reason. */
  lemma RequestOutcome(t: Tree, r: Request)
    requires WellFormed(t) && Fresh(t, r)
    ensures Apply(t, r).Done? <==> Succeeds(t, r)
    ensures Apply(t, r).Done? ==> Leaves(t, r, Apply(t, r).tree)
    ensures Apply(t, r).Fail? ==> Refused(t, r, Apply(t, r).error)
  {
    hide WellFormed, Fresh, Succeeds, Leaves, Refused, DupRack, ShiftRack, ShiftRoom, DupCenter, DupRoom;
    if r.CreateCenter? || r.UpdateCenter? || r.DeleteCenter? {
      hide Apply;
      CenterOutcome(t, r);
    } else if r.CreateRoom? || r.UpdateRoom? || r.DeleteRoom? {
      hide Apply;
      RoomOutcome(t, r);
    } else if r.CreateRack? || r.UpdateRack? || r.DeleteRack? {
      hide Apply;
      RackOutcome(t, r);
    } else if r.CopyRack? || r.MoveRack? {
      CopyRackOutcome(t, r);
    } else if r.MoveRoom? {
      MoveRoomOutcome(t, r);
    } else {
      CopyAccepted(t, r);
      if r.CopyCenter? && Apply(t, r).Done? {
        CopyCenterLeaves(t, r);
      } else if Apply(t, r).Done? {
        CopyRoomLeaves(t, r);
      }
    }
  }
}
