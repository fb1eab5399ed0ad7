// The import as the service runs it: the loops that classify the rows, the draft store, and the
// transaction that commits a plan.

module ImportService {
  import opened Wrappers
  import opened Fingerprint
  import opened RackImport
  import opened ImportProofs
  import opened ImportOutcomes

  /** How long a plan can be committed, in seconds. */
  const TTL := 1800

  datatype Draft = Draft(
    room: Uuid, actor: Uuid, createdAt: int, items: seq<Item>, defaultType: Option<Uuid>, fingerprint: string,
    covered: seq<Uuid>)

  type Drafts = map<string, Draft>

  datatype Refusal =
    | RoomUnknown | WrongRoom | WrongDataCenter | TypeUnknown | NothingToImport | BadRackId | RackUnknown
    | RackElsewhere | NoActor | DraftExpired | OwnerMismatch | DraftElsewhere | Stale | Failed(error: Error)

  function Unexpired(drafts: Drafts, now: int): Drafts {
    map t | t in drafts && now - drafts[t].createdAt <= TTL :: drafts[t]
  }

  // ----- counting items by kind -----

  function CountKind(items: seq<Item>, kind: Kind): nat {
    if items == [] then 0
    else CountKind(items[..|items| - 1], kind) + if items[|items| - 1].kind == kind then 1 else 0
  }

  lemma CountAppend(items: seq<Item>, item: Item, kind: Kind)
    ensures CountKind(items + [item], kind) == CountKind(items, kind) + if item.kind == kind then 1 else 0
  {
    assert (items + [item])[..|items|] == items;
  }

  datatype Summary = Summary(errors: nat, create: nat, update: nat, move: nat, removals: nat, same: nat)

  ghost predicate Summarises(s: Summary, items: seq<Item>) {
    && s.errors == CountKind(items, Blocked) && s.create == CountKind(items, CreateNew)
    && s.update == CountKind(items, UpdateExisting) && s.move == CountKind(items, MoveExisting)
    && s.removals == CountKind(items, RemoveMissing) && s.same == CountKind(items, Unchanged)
    && CountKind(items, NeedsDecision) == 0
  }

  function Plus(s: Summary, kind: Kind): Summary {
    match kind
    case Blocked => s.(errors := s.errors + 1)
    case CreateNew => s.(create := s.create + 1)
    case UpdateExisting => s.(update := s.update + 1)
    case MoveExisting => s.(move := s.move + 1)
    case RemoveMissing => s.(removals := s.removals + 1)
    case Unchanged => s.(same := s.same + 1)
    case NeedsDecision => s
  }

  lemma SummaryGrows(s: Summary, items: seq<Item>, item: Item)
    requires Summarises(s, items) && item.kind != NeedsDecision
    ensures Summarises(Plus(s, item.kind), items + [item])
  {
    forall kind: Kind
      ensures CountKind(items + [item], kind) == CountKind(items, kind) + if item.kind == kind then 1 else 0
    {
      CountAppend(items, item, kind);
    }
    hide CountKind;
  }

  lemma NothingSummarised()
    ensures Summarises(Summary(0, 0, 0, 0, 0, 0), [])
  {
  }

  ghost predicate OnlyMissing(db: Db, covered: seq<Uuid>, sources: seq<Option<Uuid>>, items: seq<Item>) {
    forall item :: item in items ==> IsMissing(db, covered, sources, item)
  }

  /** The positions found on the covered racks, rack by rack. */
  ghost predicate Indexed(db: Db, covered: seq<Uuid>, byRack: map<Uuid, seq<Uuid>>) {
    && (forall r, d :: r in byRack && d in byRack[r] ==> r in covered && d in db.at && db.at[d].rack == r)
    && (forall d :: OnCovered(db, covered, d) ==> db.at[d].rack in byRack && d in byRack[db.at[d].rack])
  }

  lemma IndexedAt(db: Db, covered: seq<Uuid>, byRack: map<Uuid, seq<Uuid>>, r: Uuid, d: Uuid)
    requires Indexed(db, covered, byRack) && r in byRack && d in byRack[r]
    ensures r in covered && d in db.at && db.at[d].rack == r
  {
  }

  lemma IndexStep(db: Db, covered: seq<Uuid>, rack: Uuid, byRack: map<Uuid, seq<Uuid>>, found: seq<Uuid>)
    requires Indexed(db, covered, byRack) && forall d :: d in found <==> d in db.at && db.at[d].rack == rack
    ensures Indexed(db, covered + [rack], byRack[rack := (if rack in byRack then byRack[rack] else []) + found])
  {
    var known := if rack in byRack then byRack[rack] else [];
    var next := byRack[rack := known + found];
    assert forall r :: r in covered + [rack] <==> r in covered || r == rack;
    forall r, d | r in next && d in next[r]
      ensures r in covered + [rack] && d in db.at && db.at[d].rack == r
    {
      if r != rack || d !in found {
        IndexedAt(db, covered, byRack, r, d);
      }
    }
    forall d | OnCovered(db, covered + [rack], d)
      ensures db.at[d].rack in next && d in next[db.at[d].rack]
    {
      assert db.at[d].rack != rack ==> OnCovered(db, covered, d);
    }
  }

  /** The tables at the end of a commit, and the plans that can still be committed. */
  ghost predicate CommitEnds(before: Db, drafts: Drafts, room: Uuid, token: string, actor: Option<Uuid>,
      choices: map<Key, Choice>, mint: nat -> Minted, takenAt: int, returnedAt: int,
      rows: seq<Row>, after: Db, left: Drafts, error: Option<Refusal>)
  {
    var alive := Unexpired(drafts, takenAt);
    if token !in alive then error == Some(DraftExpired) && after == before && left == alive
    else
      var draft := alive[token];
      var used := alive - {token};
      var returned := Unexpired(used, returnedAt)[token := draft];
      if actor != Some(draft.actor) then error == Some(OwnerMismatch) && after == before && left == returned
      else if draft.room != room then error == Some(DraftElsewhere) && after == before && left == returned
      else
        && PositionRows(before, draft.covered, rows)
        && if draft.fingerprint != Text(Sort(rows)) then error == Some(Stale) && after == before && left == used
           else
           var n := |draft.items|;
           match CommitFirst(before, draft.items, n, choices, seq(n, mint), draft.defaultType)
           case Ok(db) => error == None && after == db && left == used
           case Err(e) => error == Some(Failed(e)) && after == before && left == returned
  }

  /** The step ended as specified; what a failed one leaves behind is rolled back with its transaction. */
  ghost predicate Did(outcome: Result, after: Db, error: Option<Error>) {
    match outcome
    case Ok(db) => error == None && after == db
    case Err(e) => error == Some(e)
  }

  lemma {:induction false} ErrorSticks(db: Db, items: seq<Item>, k: nat, n: nat, choices: map<Key, Choice>,
      minted: seq<Minted>, type0: Option<Uuid>)
    requires k <= n <= |items| == |minted| && CommitFirst(db, items, k, choices, minted, type0).Err?
    ensures CommitFirst(db, items, n, choices, minted, type0) == CommitFirst(db, items, k, choices, minted, type0)
  {
    if k < n {
      ErrorSticks(db, items, k, n - 1, choices, minted, type0);
    }
  }

  // ----- the positions of racks as rows -----

  ghost predicate DeviceRows(db: Db, devices: seq<Uuid>, rows: seq<Row>) {
    forall r :: multiset(rows)[r] == if RowOf(db, r) then multiset(devices)[r.device] else 0
  }

  ghost predicate RackRows(db: Db, rack: Uuid, rows: seq<Row>) {
    forall r :: multiset(rows)[r] == if RowOf(db, r) && r.rack == rack then 1 else 0
  }

  lemma RowStep(db: Db, devices: seq<Uuid>, d: Uuid, rows: seq<Row>)
    requires DeviceRows(db, devices, rows) && d in db.at
    ensures DeviceRows(
              db, devices + [d], rows + [Row(db.at[d].rack, db.at[d].startU, db.at[d].endU, d, db.at[d].heightU)])
  {
  }

  lemma RackStep(db: Db, racks: seq<Uuid>, rack: Uuid, rows: seq<Row>, more: seq<Row>)
    requires PositionRows(db, racks, rows) && RackRows(db, rack, more)
    ensures PositionRows(db, racks + [rack], rows + more)
  {
  }

  class ImportService {
    var rooms: map<Uuid, Uuid>
    var types: set<Uuid>
    var devices: map<Uuid, Device>
    var racks: map<Uuid, Rack>
    var at: map<Uuid, Place>
    var drafts: Drafts

    function State(): Db
      reads this
    {
      Db(devices, racks, at)
    }

    /** The database's constraints hold, and every plan starts its rows at U 1 or higher. */
    ghost predicate Valid()
      reads this
    {
      Constrained(State()) && forall t :: t in drafts ==> Grounded(drafts[t].items)
    }

    constructor (rooms: map<Uuid, Uuid>, types: set<Uuid>, db: Db)
      requires Constrained(db)
      ensures Valid() && State() == db && drafts == map[]
    {
      this.rooms, this.types := rooms, types;
      devices, racks, at, drafts := db.devices, db.racks, db.at, map[];
    }

    // ----- the draft store -----

    method CollectDrafts(now: int)
      modifies this`drafts
      ensures drafts == Unexpired(old(drafts), now)
    {
      var rest := drafts.Keys;
      while rest != {}
        invariant rest <= drafts.Keys <= old(drafts).Keys
        invariant forall t :: t in drafts ==> drafts[t] == old(drafts)[t]
        invariant forall t :: t in old(drafts) && t !in rest ==>
                                (t in drafts <==> now - old(drafts)[t].createdAt <= TTL)
        decreases |rest|
      {
        var t :| t in rest;
        rest := rest - {t};
        if now - drafts[t].createdAt > TTL {
          drafts := drafts - {t};
        }
      }
    }

    method PutDraft(token: string, draft: Draft, now: int)
      modifies this`drafts
      ensures drafts == Unexpired(old(drafts), now)[token := draft]
    {
      CollectDrafts(now);
      drafts := drafts[token := draft];
    }

    method TakeDraft(token: string, now: int) returns (draft: Option<Draft>)
      modifies this`drafts
      ensures var alive := Unexpired(old(drafts), now);
              && draft == (if token in alive then Some(alive[token]) else None)
              && drafts == alive - {token}
    {
      CollectDrafts(now);
      draft := None;
      if token in drafts {
        draft := Some(drafts[token]);
        drafts := drafts - {token};
      }
    }

    // ----- queries -----

    method PositionsOn(rack: Uuid) returns (found: seq<Uuid>)
      ensures forall d :: multiset(found)[d] == if d in at && at[d].rack == rack then 1 else 0
      ensures forall d :: d in found <==> d in at && at[d].rack == rack
    {
      found := [];
      var rest := at.Keys;
      while rest != {}
        invariant rest <= at.Keys
        invariant forall d :: multiset(found)[d] == if d in at && d !in rest && at[d].rack == rack then 1 else 0
        decreases |rest|
      {
        var d :| d in rest;
        rest := rest - {d};
        if at[d].rack == rack {
          found := found + [d];
        }
      }
      assert forall d :: d in found <==> d in multiset(found);
    }

    method RowsOn(rack: Uuid) returns (rows: seq<Row>)
      ensures RackRows(State(), rack, rows)
    {
      var found := PositionsOn(rack);
      rows := [];
      for j := 0 to |found|
        invariant DeviceRows(State(), found[..j], rows)
      {
        var p := at[found[j]];
        assert found[..j + 1] == found[..j] + [found[j]];
        RowStep(State(), found[..j], found[j], rows);
        rows := rows + [Row(p.rack, p.startU, p.endU, found[j], p.heightU)];
      }
      assert found[..|found|] == found;
    }

    method PositionsFingerprint(covered: seq<Uuid>) returns (text: string, ghost rows: seq<Row>)
      ensures text == Text(Sort(rows)) && PositionRows(State(), covered, rows)
      ensures forall found | PositionRows(State(), covered, found) :: text == Text(Sort(found))
    {
      var all := [];
      for i := 0 to |covered|
        invariant PositionRows(State(), covered[..i], all)
      {
        var onRack := RowsOn(covered[i]);
        RackStep(State(), covered[..i], covered[i], all, onRack);
        assert covered[..i + 1] == covered[..i] + [covered[i]];
        all := all + onRack;
      }
      assert covered[..|covered|] == covered;
      text := Compute(all);
      rows := all;
      forall found | PositionRows(State(), covered, found)
        ensures text == Text(Sort(found))
      {
        StaleIffMoved(State(), State(), covered, rows, found);
      }
    }
  
    // ----- the commit -----

    method UpdateDeviceLifecycle(d: Uuid, lifecycle: Inventory.Lifecycle)
      modifies this`devices
      ensures State() == Retired(old(State()), d, lifecycle)
    {
      if d in devices && !devices[d].deleted {
        devices := devices[d := devices[d].(lifecycle := lifecycle, version := devices[d].version + 1)];
      }
    }

    method Place(d: Uuid, rackId: Uuid, startU: int, height: int) returns (error: Option<Error>)
      modifies this`devices, this`at
      ensures Did(PlaceDevice(old(State()), d, rackId, startU, height), State(), error)
    {
      if rackId !in racks || racks[rackId].deleted {
        return Some(RackNotFound);
      }
      var endU := startU + height - 1;
      if endU > racks[rackId].uHeight {
        return Some(AboveRack);
      }
      var p := RackImport.Place(rackId, startU, endU, height);
      if d !in devices || height < 1 || exists o :: o in at && o != d && Overlap(at[o], p) {
        return Some(ConstraintViolated);
      }
      at := at[d := p];
      UpdateDeviceLifecycle(d, Inventory.Running);
      error := None;
    }

    method DoCreate(line: Line, minted: Minted, defaultType: Option<Uuid>) returns (error: Option<Error>)
      modifies this`devices, this`at
      ensures Did(CommitCreate(old(State()), line, minted, defaultType), State(), error)
    {
      if line.typeId.None? && defaultType.None? {
        return Some(TypeMissing);
      }
      if line.rack.None? {
        return Some(MalformedId);
      }
      var code := line.sourceCode;
      if code == "" {
        code := minted.code;
      }
      var height := line.endU - line.startU + 1;
      if minted.id in devices || exists o :: o in devices && !devices[o].deleted && devices[o].code == code {
        return Some(ConstraintViolated);
      }
      devices := devices[minted.id := Device(code, line.name, line.serial, height, Inventory.WaitingRack, 1, false)];
      error := Place(minted.id, line.rack.value, line.startU, height);
    }

    method DoUpdate(line: Line) returns (error: Option<Error>)
      modifies this`devices
      ensures Did(CommitUpdate(old(State()), line), State(), error)
    {
      if line.source.None? {
        return Some(MalformedId);
      }
      var d := line.source.value;
      if d !in devices || devices[d].deleted {
        return Some(DeviceNotFound);
      }
      var next := devices[d];
      if line.name != "" {
        next := next.(name := line.name);
      }
      if line.serial != "" {
        next := next.(serial := line.serial);
      }
      devices := devices[d := next.(version := next.version + 1)];
      error := None;
    }

    method DoMove(line: Line) returns (error: Option<Error>)
      modifies this`devices, this`at
      ensures Did(CommitMove(old(State()), line), State(), error)
    {
      if line.source.None? || line.rack.None? {
        return Some(MalformedId);
      }
      error := Place(line.source.value, line.rack.value, line.startU, line.endU - line.startU + 1);
    }

    method DoRemoval(line: Line) returns (error: Option<Error>)
      modifies this`devices, this`at
      ensures Did(CommitRemoval(old(State()), line), State(), error)
    {
      if line.source.None? {
        return Some(MalformedId);
      }
      var d := line.source.value;
      if d !in at {
        return Some(NotPlaced);
      }
      at := at - {d};
      UpdateDeviceLifecycle(d, Inventory.OffRack);
      error := None;
    }

    method DoItem(item: Item, choice: Option<Choice>, minted: Minted, defaultType: Option<Uuid>, tally: Tally)
      returns (error: Option<Error>, counted: Tally)
      requires Constrained(State())
      modifies this`devices, this`at
      ensures error.None? <==> Succeeds(old(State()), item, choice, minted, defaultType)
      ensures error.None? ==> Leaves(old(State()), item, choice, minted, State())
      ensures error.Some? ==> Refused(old(State()), item, choice, minted, defaultType, error.value)
      ensures Did(CommitItem(old(State()), item, choice, minted, defaultType), State(), error)
      ensures error.None? ==> counted == Counted(tally, item, choice)
    {
      ItemOutcome(State(), item, choice, minted, defaultType);
      if CommitItem(State(), item, choice, minted, defaultType).Err? {
        RefusalIsTruthful(State(), item, choice, minted, defaultType);
      }
      hide CommitCreate, CommitUpdate, CommitMove, CommitRemoval, Succeeds, Leaves, Refused, Constrained;
      counted, error := tally, None;
      match item.kind
      case Blocked => error := Some(BlockingError);
      case Unchanged =>
      case CreateNew =>
        if item.requiresDecision && (choice == Some(Ignore) || choice == Some(Skip)) {
          counted := counted.(ignored := counted.ignored + 1);
        } else {
          error := DoCreate(item.line, minted, defaultType);
          counted := counted.(created := counted.created + 1);
        }
      case UpdateExisting =>
        error := DoUpdate(item.line);
        counted := counted.(updated := counted.updated + 1);
      case MoveExisting =>
        error := DoMove(item.line);
        counted := counted.(moved := counted.moved + 1);
      case RemoveMissing =>
        if choice == Some(Ignore) || choice == Some(Skip) || choice == None {
          counted := counted.(ignored := counted.ignored + 1);
        } else if choice != Some(Decommission) {
          error := Some(BadRemoval);
        } else {
          error := DoRemoval(item.line);
          counted := counted.(decommissioned := counted.decommissioned + 1);
        }
      case NeedsDecision =>
        match choice
        case Some(Ignore) => counted := counted.(ignored := counted.ignored + 1);
        case Some(Skip) => counted := counted.(ignored := counted.ignored + 1);
        case Some(Update) =>
          error := DoUpdate(item.line);
          counted := counted.(updated := counted.updated + 1);
        case Some(Create) =>
          error := DoCreate(item.line, minted, defaultType);
          counted := counted.(created := counted.created + 1);
        case None => error := Some(DecisionMissing);
        case _ => error := Some(UnknownDecision);
    }

    /** All items in one transaction: every one of them is done, or none. */
    method Transact(draft: Draft, choices: map<Key, Choice>, minted: seq<Minted>)
      returns (error: Option<Error>, tally: Tally)
      requires |draft.items| == |minted| && Constrained(State())
      modifies this`devices, this`at
      ensures Constrained(State())
      ensures error.None? ==> StayedWithin(old(State()), State(), draft.items, choices)
      ensures error.None? ==> forall deed ::
                Reported(tally, deed) == |Doers(draft.items, choices, |draft.items|, deed)|
      ensures match CommitFirst(old(State()), draft.items, |draft.items|, choices, minted, draft.defaultType)
              case Ok(db) => error == None && State() == db && tally == CountFirst(draft.items, |draft.items|, choices)
              case Err(e) => error == Some(e) && State() == old(State())
    {
      hide CommitItem, Counted, Constrained, StayedWithin, Doers, Reported, Succeeds, Leaves;
      ghost var job := Job(draft.items, choices, minted, draft.defaultType);
      var savedDevices, savedAt := devices, at;
      tally := Tally(0, 0, 0, 0, 0);
      for n := 0 to |draft.items|
        invariant racks == old(racks)
        invariant CommitFirst(old(State()), draft.items, n, choices, minted, draft.defaultType) == Ok(State())
        invariant tally == CountFirst(draft.items, n, choices)
      {
        var item := draft.items[n];
        var choice := None;
        LastMoveDecides(old(State()), job, n, minted[n].id);
        if item.key in choices {
          choice := Some(choices[item.key]);
        }
        error, tally := DoItem(item, choice, minted[n], draft.defaultType, tally);
        if error.Some? {
          ErrorSticks(old(State()), draft.items, n + 1, |draft.items|, choices, minted, draft.defaultType);
          devices, at := savedDevices, savedAt;
          return;
        }
      }
      ImportStays(old(State()), job);
      forall deed
        ensures Reported(tally, deed) == |Doers(draft.items, choices, |draft.items|, deed)|
      {
        TallyCounts(draft.items, choices, |draft.items|, deed);
      }
      error := None;
    }

    method Commit(room: Uuid, token: string, actor: Option<Uuid>, choices: map<Key, Choice>, mint: nat -> Minted,
        takenAt: int, returnedAt: int)
      returns (error: Option<Refusal>, tally: Tally, ghost rows: seq<Row>)
      requires Valid()
      modifies this`devices, this`at, this`drafts
      ensures Valid()
      ensures error.Some? ==> State() == old(State())
      ensures error == Some(DraftExpired) <==>
                token in old(drafts) ==> takenAt - old(drafts)[token].createdAt > 1800
      ensures error.None? ==>
                && token in old(drafts) && token !in drafts
                && var draft := old(drafts)[token];
                   && actor == Some(draft.actor) && room == draft.room
                   && PositionRows(old(State()), draft.covered, rows) && draft.fingerprint == Text(Sort(rows))
                   && StayedWithin(old(State()), State(), draft.items, choices)
                   && forall deed :: Reported(tally, deed) == |Doers(draft.items, choices, |draft.items|, deed)|
      ensures error.Some? && error != Some(DraftExpired) ==>
                && token in old(drafts)
                && var draft := old(drafts)[token];
                   && (error == Some(OwnerMismatch) ==> actor != Some(draft.actor))
                   && (error == Some(DraftElsewhere) ==> room != draft.room)
                   && (error == Some(Stale) ==>
                         PositionRows(State(), draft.covered, rows) && draft.fingerprint != Text(Sort(rows)))
                   && (if error == Some(Stale) then token !in drafts else token in drafts && drafts[token] == draft)
      ensures CommitEnds(old(State()), old(drafts), room, token, actor, choices, mint, takenAt, returnedAt, rows,
                         State(), drafts, error)
      ensures error.None? ==>
                && token in Unexpired(old(drafts), takenAt)
                && var items := Unexpired(old(drafts), takenAt)[token].items;
                   tally == CountFirst(items, |items|, choices)
    {
      hide CommitFirst, CountFirst, PositionRows, Text, Sort, Constrained, StayedWithin, Doers, Reported, Grounded;
      tally, rows := Tally(0, 0, 0, 0, 0), [];
      var taken := TakeDraft(token, takenAt);
      if taken.None? {
        assert drafts == Unexpired(old(drafts), takenAt);
        return Some(DraftExpired), tally, rows;
      }
      var draft := taken.value;
      if actor != Some(draft.actor) {
        PutDraft(token, draft, returnedAt);
        return Some(OwnerMismatch), tally, rows;
      }
      if draft.room != room {
        PutDraft(token, draft, returnedAt);
        return Some(DraftElsewhere), tally, rows;
      }
      var current;
      current, rows := PositionsFingerprint(draft.covered);
      if current != draft.fingerprint {
        return Some(Stale), tally, rows;
      }
      var failure;
      failure, tally := Transact(draft, choices, seq(|draft.items|, mint));
      if failure.Some? {
        PutDraft(token, draft, returnedAt);
        return Some(Failed(failure.value)), tally, rows;
      }
      error := None;
    }
  
    // ----- the plan -----

    method IndexPositions(covered: seq<Uuid>) returns (byRack: map<Uuid, seq<Uuid>>)
      ensures Indexed(State(), covered, byRack)
    {
      byRack := map[];
      for i := 0 to |covered|
        invariant Indexed(State(), covered[..i], byRack)
      {
        var found := PositionsOn(covered[i]);
        IndexStep(State(), covered[..i], covered[i], byRack, found);
        assert covered[..i + 1] == covered[..i] + [covered[i]];
        byRack := byRack[covered[i] := (if covered[i] in byRack then byRack[covered[i]] else []) + found];
      }
      assert covered[..|covered|] == covered;
    }

    method FindByCode(byRack: map<Uuid, seq<Uuid>>, ghost covered: seq<Uuid>, code: string) returns (src: Option<Uuid>)
      requires Indexed(State(), covered, byRack)
      ensures if src.Some? then HasCode(State(), covered, src.value, code)
              else forall d :: !HasCode(State(), covered, d, code)
    {
      src := None;
      var rest := byRack.Keys;
      while rest != {}
        invariant rest <= byRack.Keys
        invariant forall r, d :: r in byRack && r !in rest && d in byRack[r] ==> !HasCode(State(), covered, d, code)
        decreases |rest|
      {
        var r :| r in rest;
        rest := rest - {r};
        for i := 0 to |byRack[r]|
          invariant forall j :: 0 <= j < i ==> !HasCode(State(), covered, byRack[r][j], code)
        {
          var d := byRack[r][i];
          if d in devices && !devices[d].deleted && devices[d].code == code {
            return Some(d);
          }
        }
      }
    }

    method ResolveLine(byRack: map<Uuid, seq<Uuid>>, ghost covered: seq<Uuid>, line: Line) returns (src: Option<Uuid>)
      requires Indexed(State(), covered, byRack)
      ensures Resolves(State(), covered, line, src) && (src.Some? ==> Live(State(), src.value))
    {
      src := None;
      if line.source.Some? && line.source.value in devices && !devices[line.source.value].deleted {
        src := line.source;
      }
      if src == None && line.sourceCode != "" {
        src := FindByCode(byRack, covered, line.sourceCode);
      }
    }

    method PlanLine(byRack: map<Uuid, seq<Uuid>>, covered: seq<Uuid>, line: Line, n: nat)
      returns (item: Item, src: Option<Uuid>)
      requires Indexed(State(), covered, byRack)
      ensures PlannedLine(State(), covered, line, n, src, item) && item.kind != NeedsDecision
    {
      src := None;
      item := Item(LineKey(n), Blocked, line, false);
      if Blank(line.name) || line.rack.None? || line.rack.value !in covered {
        return;
      }
      if line.startU < 1 || line.endU < line.startU {
        return;
      }
      src := ResolveLine(byRack, covered, line);
      if src.None? {
        item := item.(kind := CreateNew);
      } else {
        var d := src.value;
        var samePos :=
          d in at && at[d].rack == line.rack.value && at[d].startU == line.startU && at[d].endU == line.endU;
        var sameMeta := devices[d].name == line.name && (line.serial == "" || devices[d].serial == line.serial);
        if samePos && sameMeta {
          item := item.(kind := Unchanged);
        } else if samePos {
          item := item.(kind := UpdateExisting);
        } else {
          item := item.(kind := MoveExisting);
        }
      }
    }

    method PlanLines(byRack: map<Uuid, seq<Uuid>>, covered: seq<Uuid>, lines: seq<Line>)
      returns (items: seq<Item>, sources: seq<Option<Uuid>>, summary: Summary)
      requires Indexed(State(), covered, byRack)
      ensures |items| == |sources| == |lines| && Summarises(summary, items)
      ensures forall n :: 0 <= n < |lines| ==> PlannedLine(State(), covered, lines[n], n, sources[n], items[n])
    {
      hide Summarises, PlannedLine;
      items, sources, summary := [], [], Summary(0, 0, 0, 0, 0, 0);
      NothingSummarised();
      for i := 0 to |lines|
        invariant |items| == |sources| == i && Summarises(summary, items)
        invariant forall n :: 0 <= n < i ==> PlannedLine(State(), covered, lines[n], n, sources[n], items[n])
      {
        var item, src := PlanLine(byRack, covered, lines[i], i);
        SummaryGrows(summary, items, item);
        items, sources, summary := items + [item], sources + [src], Plus(summary, item.kind);
      }
    }

    method PlanMissingOn(found: seq<Uuid>, ghost covered: seq<Uuid>, sources: seq<Option<Uuid>>, counted: Summary,
        ghost planned: seq<Item>)
      returns (items: seq<Item>, summary: Summary)
      requires Summarises(counted, planned)
      requires forall d :: d in found ==> OnCovered(State(), covered, d)
      ensures Summarises(summary, planned + items) && OnlyMissing(State(), covered, sources, items)
      ensures forall d :: d in found && Missing(State(), covered, sources, d) ==> MissingItem(State(), d) in items
    {
      hide Summarises;
      items, summary := [], counted;
      assert planned + items == planned;
      for i := 0 to |found|
        invariant Summarises(summary, planned + items) && OnlyMissing(State(), covered, sources, items)
        invariant forall j :: 0 <= j < i && Missing(State(), covered, sources, found[j]) ==>
                      MissingItem(State(), found[j]) in items
      {
        var d := found[i];
        assert d in found;
        if Some(d) !in sources && d in devices && !devices[d].deleted {
          var p := at[d];
          var line := Line(devices[d].name, Some(p.rack), p.startU, p.endU, "", Some(d), "", None);
          var item := Item(MissingKey(d), RemoveMissing, line, true);
          SummaryGrows(summary, planned + items, item);
          assert planned + items + [item] == planned + (items + [item]);
          assert Missing(State(), covered, sources, d) && item == MissingItem(State(), d);
          items, summary := items + [item], Plus(summary, RemoveMissing);
        }
      }
    }

    method PlanMissing(byRack: map<Uuid, seq<Uuid>>, ghost covered: seq<Uuid>, sources: seq<Option<Uuid>>,
        counted: Summary, ghost planned: seq<Item>)
      returns (items: seq<Item>, summary: Summary)
      requires Indexed(State(), covered, byRack) && Summarises(counted, planned)
      ensures Summarises(summary, planned + items) && OnlyMissing(State(), covered, sources, items)
      ensures forall d :: Missing(State(), covered, sources, d) ==> MissingItem(State(), d) in items
    {
      hide Summarises;
      items, summary := [], counted;
      assert planned + items == planned;
      var rest := byRack.Keys;
      while rest != {}
        invariant rest <= byRack.Keys
        invariant Summarises(summary, planned + items) && OnlyMissing(State(), covered, sources, items)
        invariant forall r, d ::
                    r in byRack && r !in rest && d in byRack[r] && Missing(State(), covered, sources, d) ==>
                      MissingItem(State(), d) in items
        decreases |rest|
      {
        var r :| r in rest;
        rest := rest - {r};
        var more;
        more, summary := PlanMissingOn(byRack[r], covered, sources, summary, planned + items);
        assert planned + items + more == planned + (items + more);
        items := items + more;
      }
    }

    method CheckCovered(room: Uuid, ids: seq<Option<Uuid>>) returns (error: Option<Refusal>, covered: seq<Uuid>)
      ensures error.None? ==>
                && |covered| == |ids|
                && forall i :: 0 <= i < |ids| ==>
                     ids[i] == Some(covered[i]) && LiveRack(State(), covered[i]) && racks[covered[i]].room == room
      ensures error.Some? ==>
                exists i | 0 <= i < |ids| ::
                  ids[i].None? || !LiveRack(State(), ids[i].value) || racks[ids[i].value].room != room
    {
      covered := [];
      for i := 0 to |ids|
        invariant |covered| == i
        invariant forall j :: 0 <= j < i ==>
            ids[j] == Some(covered[j]) && LiveRack(State(), covered[j]) && racks[covered[j]].room == room
      {
        if ids[i].None? {
          return Some(BadRackId), covered;
        }
        var r := ids[i].value;
        if r !in racks || racks[r].deleted {
          return Some(RackUnknown), covered;
        }
        if racks[r].room != room {
          return Some(RackElsewhere), covered;
        }
        covered := covered + [r];
      }
      error := None;
    }

    /** Plans an import; an identifier that the body repeats must agree with the room of the path. */
    method Validate(room: Uuid, bodyRoom: Option<Uuid>, bodyDataCenter: Option<Uuid>, coveredIds: seq<Option<Uuid>>,
        lines: seq<Line>, defaultType: Option<Uuid>, actor: Option<Uuid>, token: string, now: int)
      returns (error: Option<Refusal>, summary: Summary, ghost sources: seq<Option<Uuid>>, ghost rows: seq<Row>)
      requires Valid()
      modifies this`drafts
      ensures Valid()
      ensures error.None? <==>
                && room in rooms && bodyRoom in {None, Some(room)} && bodyDataCenter in {None, Some(rooms[room])}
                && (defaultType.Some? ==> defaultType.value in types) && lines != [] && actor.Some?
                && forall i :: 0 <= i < |coveredIds| ==>
                     && coveredIds[i].Some? && coveredIds[i].value in racks && !racks[coveredIds[i].value].deleted
                     && racks[coveredIds[i].value].room == room
      ensures error.None? ==>
                && token in drafts && |lines| == |sources| <= |drafts[token].items|
                && |drafts[token].covered| == |coveredIds|
                && (forall i :: 0 <= i < |coveredIds| ==> coveredIds[i] == Some(drafts[token].covered[i]))
                && forall n :: 0 <= n < |lines| ==>
                     && drafts[token].items[n].line == lines[n]
                     && Classified(State(), drafts[token].covered, lines[n], sources[n], drafts[token].items[n].kind)
      ensures error.Some? ==> drafts == old(drafts)
      ensures error.None? ==>
                && room in rooms && bodyRoom in {None, Some(room)} && bodyDataCenter in {None, Some(rooms[room])}
                && lines != [] && actor.Some? && token in drafts
                && drafts == Unexpired(old(drafts), now)[token := drafts[token]]
                && var draft := drafts[token];
                   && draft.room == room && draft.actor == actor.value && draft.createdAt == now
                   && draft.defaultType == defaultType
                   && Planned(State(), draft.covered, lines, sources, draft.items) && Summarises(summary, draft.items)
                   && PositionRows(State(), draft.covered, rows) && draft.fingerprint == Text(Sort(rows))
                   && (forall r :: r in draft.covered ==> LiveRack(State(), r) && racks[r].room == room)
    {
      hide PositionRows, Text, Sort, Summarises, Indexed, PlannedLine, Classified, Grounded, Constrained;
      summary, sources, rows := Summary(0, 0, 0, 0, 0, 0), [], [];
      if room !in rooms {
        return Some(RoomUnknown), summary, sources, rows;
      }
      if bodyRoom.Some? && bodyRoom.value != room {
        return Some(WrongRoom), summary, sources, rows;
      }
      if bodyDataCenter.Some? && bodyDataCenter.value != rooms[room] {
        return Some(WrongDataCenter), summary, sources, rows;
      }
      if defaultType.Some? && defaultType.value !in types {
        return Some(TypeUnknown), summary, sources, rows;
      }
      if lines == [] {
        return Some(NothingToImport), summary, sources, rows;
      }
      var covered;
      error, covered := CheckCovered(room, coveredIds);
      if error.Some? {
        return;
      }
      var byRack := IndexPositions(covered);
      var planned, found;
      planned, found, summary := PlanLines(byRack, covered, lines);
      sources := found;
      var missing;
      missing, summary := PlanMissing(byRack, covered, found, summary, planned);
      PlanIsComplete(State(), covered, lines, sources, planned, missing);
      PlanIsGrounded(State(), covered, lines, sources, planned + missing);
      var text;
      text, rows := PositionsFingerprint(covered);
      if actor.None? {
        return Some(NoActor), summary, sources, rows;
      }
      PutDraft(token, Draft(room, actor.value, now, planned + missing, defaultType, text, covered), now);
      error := None;
    }
  }

  lemma PlanIsComplete(db: Db, covered: seq<Uuid>, lines: seq<Line>, sources: seq<Option<Uuid>>, planned: seq<Item>,
      missing: seq<Item>)
    requires |planned| == |sources| == |lines|
    requires forall n :: 0 <= n < |lines| ==> PlannedLine(db, covered, lines[n], n, sources[n], planned[n])
    requires OnlyMissing(db, covered, sources, missing)
    requires forall d :: Missing(db, covered, sources, d) ==> MissingItem(db, d) in missing
    ensures Planned(db, covered, lines, sources, planned + missing)
  {
    hide PlannedLine;
    var items := planned + missing;
    forall n | 0 <= n < |lines|
      ensures PlannedLine(db, covered, lines[n], n, sources[n], items[n])
    {
      assert items[n] == planned[n];
    }
    assert items[|lines|..] == missing;
    forall m | |lines| <= m < |items|
      ensures IsMissing(db, covered, sources, items[m])
    {
      assert items[m] == missing[m - |planned|] && items[m] in missing;
    }
  }

  /**
   * From the plan to the tables: a commit that succeeds with a plan made on the tables `seen` realises the
   * diagram exactly if the diagram is consistent, and the plan cannot be committed again.
   */
  lemma CommitRealisesPlan(seen: Db, lines: seq<Line>, sources: seq<Option<Uuid>>, planRows: seq<Row>,
      found: Db, drafts: Drafts, room: Uuid, token: string, actor: Option<Uuid>, choices: map<Key, Choice>,
      mint: nat -> Minted, takenAt: int, returnedAt: int, rows: seq<Row>, after: Db, left: Drafts)
    returns (im: Import)
    requires token in drafts && takenAt - drafts[token].createdAt <= TTL
    requires var draft := drafts[token];
             && Planned(seen, draft.covered, lines, sources, draft.items)
             && PositionRows(seen, draft.covered, planRows) && draft.fingerprint == Text(Sort(planRows))
             && Unused(found, Job(draft.items, choices, seq(|draft.items|, mint), draft.defaultType))
    requires Constrained(found) && seen.devices.Keys <= found.devices.Keys
    requires CommitEnds(found, drafts, room, token, actor, choices, mint, takenAt, returnedAt, rows, after, left, None)
    ensures im.seen == seen && im.found == found && im.lines == lines && im.sources == sources
    ensures im.Sound() && im.Result() == after && token !in left
    ensures im.Realised() <==> im.Consistent()
  {
    var draft := drafts[token];
    var job := Job(draft.items, choices, seq(|draft.items|, mint), draft.defaultType);
    im := Import(seen, found, draft.covered, lines, sources, job);
    hide CommitFirst, Text, Sort, Planned, Constrained;
    assert Unexpired(drafts, takenAt)[token] == draft;
    StaleIffMoved(seen, found, draft.covered, planRows, rows);
    hide PositionRows, SameOnCovered;
    assert After(found, job, |job.items|) == Ok(after);
    assert im.Sound();
    RealisedIffConsistent(im);
  }
}
