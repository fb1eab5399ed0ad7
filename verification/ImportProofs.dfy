// What a successful import leaves in the covered racks, and exactly when that is the diagram.

module ImportProofs {
  import opened Wrappers
  import opened Fingerprint
  import opened RackImport

  // ----- what the constraints keep -----

  /** The foreign key and the exclusion constraint. */
  ghost predicate Constrained(db: Db) {
    && (forall d :: d in db.at ==> d in db.devices && db.at[d].startU <= db.at[d].endU)
    && (forall d, e :: d in db.at && e in db.at && d != e ==> !Overlap(db.at[d], db.at[e]))
  }

  /** The device whose position the item changes. */
  function Target(item: Item, choice: Option<Choice>, minted: Minted): Option<Uuid> {
    match item.kind
    case CreateNew => if item.requiresDecision && Ignored(choice) then None else Some(minted.id)
    case MoveExisting => item.line.source
    case RemoveMissing => if choice == Some(Decommission) then item.line.source else None
    case NeedsDecision => if choice == Some(Create) then Some(minted.id) else None
    case _ => None
  }

  /** Where the item leaves its target. */
  ghost predicate Effect(db: Db, d: Uuid, item: Item) {
    if item.kind.RemoveMissing? then d !in db.at else SitsAs(db, d, item.line)
  }

  ghost predicate SamePlace(before: Db, after: Db, d: Uuid) {
    if d in before.at then d in after.at && after.at[d] == before.at[d] else d !in after.at
  }

  /** At most the target has moved, no device's row is gone and the constraints hold. */
  ghost predicate MovesOnly(before: Db, after: Db, target: Option<Uuid>) {
    && (forall d :: Some(d) != target ==> SamePlace(before, after, d))
    && before.devices.Keys <= after.devices.Keys
    && (Constrained(before) ==> Constrained(after))
  }

  lemma PlaceDeviceMoves(db: Db, d: Uuid, rack: Uuid, startU: int, height: int)
    requires PlaceDevice(db, d, rack, startU, height).Ok?
    ensures var after := PlaceDevice(db, d, rack, startU, height).db;
            && MovesOnly(db, after, Some(d))
            && d in after.at && after.at[d] == Place(rack, startU, startU + height - 1, height)
  {
  }

  lemma RowAdded(db: Db, id: Uuid, device: Device)
    ensures MovesOnly(db, db.(devices := db.devices[id := device]), Some(id))
  {
  }

  lemma MovesChain(a: Db, b: Db, c: Db, target: Option<Uuid>)
    requires MovesOnly(a, b, target) && MovesOnly(b, c, target)
    ensures MovesOnly(a, c, target)
  {
    hide Constrained;
  }

  lemma CreateMoves(db: Db, line: Line, minted: Minted, type0: Option<Uuid>)
    requires CommitCreate(db, line, minted, type0).Ok?
    ensures var after := CommitCreate(db, line, minted, type0).db;
            && MovesOnly(db, after, Some(minted.id)) && SitsAs(after, minted.id, line) && minted.id !in db.devices
  {
    hide PlaceDevice, Overlap, MovesOnly, Live;
    var height := line.endU - line.startU + 1;
    var code := if line.sourceCode == "" then minted.code else line.sourceCode;
    var device := Device(code, line.name, line.serial, height, Inventory.WaitingRack, 1, false);
    var wider := db.(devices := db.devices[minted.id := device]);
    assert CommitCreate(db, line, minted, type0) ==
           PlaceDevice(wider, minted.id, line.rack.value, line.startU, height);
    RowAdded(db, minted.id, device);
    PlaceDeviceMoves(wider, minted.id, line.rack.value, line.startU, height);
    MovesChain(db, wider, CommitCreate(db, line, minted, type0).db, Some(minted.id));
  }

  lemma MoveMoves(db: Db, line: Line)
    requires CommitMove(db, line).Ok?
    ensures line.source.Some?
    ensures var after := CommitMove(db, line).db;
            MovesOnly(db, after, line.source) && SitsAs(after, line.source.value, line)
  {
    hide PlaceDevice, Overlap;
    PlaceDeviceMoves(db, line.source.value, line.rack.value, line.startU, line.endU - line.startU + 1);
  }

  lemma RemovalMoves(db: Db, line: Line)
    requires CommitRemoval(db, line).Ok?
    ensures line.source.Some?
    ensures var after := CommitRemoval(db, line).db;
            MovesOnly(db, after, line.source) && line.source.value !in after.at
  {
  }

  lemma UpdateMoves(db: Db, line: Line)
    requires CommitUpdate(db, line).Ok?
    ensures MovesOnly(db, CommitUpdate(db, line).db, None)
  {
  }

  /** An item moves its target, to where its line says, and nothing else. */
  lemma ItemMovesTarget(db: Db, item: Item, choice: Option<Choice>, minted: Minted, type0: Option<Uuid>)
    requires CommitItem(db, item, choice, minted, type0).Ok?
    ensures var after, target := CommitItem(db, item, choice, minted, type0).db, Target(item, choice, minted);
            && MovesOnly(db, after, target) && (target.Some? ==> Effect(after, target.value, item))
            && !item.kind.Blocked? && (item.kind.CreateNew? && target.Some? ==> minted.id !in db.devices)
  {
    var line := item.line;
    hide MovesOnly, CommitCreate, CommitMove, CommitRemoval, CommitUpdate, SitsAs;
    NothingMoves(db);
    match item.kind
    case CreateNew =>
      if Target(item, choice, minted).Some? {
        CreateMoves(db, line, minted, type0);
      }
    case UpdateExisting => UpdateMoves(db, line);
    case MoveExisting => MoveMoves(db, line);
    case RemoveMissing =>
      if choice == Some(Decommission) {
        RemovalMoves(db, line);
      }
    case NeedsDecision =>
      if choice == Some(Update) {
        UpdateMoves(db, line);
      } else if choice == Some(Create) {
        CreateMoves(db, line, minted, type0);
      }
    case _ =>
  }

  lemma NothingMoves(db: Db)
    ensures MovesOnly(db, db, None)
  {
    hide Constrained;
  }

  // ----- the whole list -----

  datatype Job = Job(
    items: seq<Item>, choices: map<Key, Choice>, minted: seq<Minted>, defaultType: Option<Uuid>)

  function After(db: Db, job: Job, n: nat): Result
    requires n <= |job.items| == |job.minted|
  {
    CommitFirst(db, job.items, n, job.choices, job.minted, job.defaultType)
  }

  function TargetOf(job: Job, n: nat): Option<Uuid>
    requires n < |job.items| == |job.minted|
  {
    Target(job.items[n], ChoiceFor(job.choices, job.items[n].key), job.minted[n])
  }

  /** The last of the first `n` items that moves `d`. */
  function LastMove(job: Job, n: nat, d: Uuid): (last: Option<nat>)
    requires n <= |job.items| == |job.minted|
    ensures last.Some? ==> last.value < n && TargetOf(job, last.value) == Some(d)
    ensures forall m | 0 <= m < n && TargetOf(job, m) == Some(d) :: last.Some? && m <= last.value
  {
    if n == 0 then None
    else if TargetOf(job, n - 1) == Some(d) then Some(n - 1)
    else LastMove(job, n - 1, d)
  }

  lemma PrefixSucceeds(db: Db, job: Job, n: nat)
    requires 0 < n <= |job.items| == |job.minted| && After(db, job, n).Ok?
    ensures After(db, job, n - 1).Ok?
    ensures var before := After(db, job, n - 1);
            After(db, job, n) == CommitItem(before.db, job.items[n - 1], ChoiceFor(job.choices, job.items[n - 1].key),
                                            job.minted[n - 1], job.defaultType)
  {
  }

  /** In the end a device is where the last item that moved it put it. */
  lemma {:induction false} LastMoveDecides(db: Db, job: Job, n: nat, d: Uuid)
    requires n <= |job.items| == |job.minted| && After(db, job, n).Ok?
    ensures match LastMove(job, n, d)
            case None => SamePlace(db, After(db, job, n).db, d)
            case Some(m) => Effect(After(db, job, n).db, d, job.items[m])
    ensures Constrained(db) ==> Constrained(After(db, job, n).db)
    ensures db.devices.Keys <= After(db, job, n).db.devices.Keys
    ensures forall m | 0 <= m < n :: !job.items[m].kind.Blocked?
  {
    hide CommitItem, Constrained;
    if n > 0 {
      PrefixSucceeds(db, job, n);
      LastMoveDecides(db, job, n - 1, d);
      var before := After(db, job, n - 1);
      ItemMovesTarget(before.db, job.items[n - 1], ChoiceFor(job.choices, job.items[n - 1].key), job.minted[n - 1],
                      job.defaultType);
      hide CommitFirst, After, Target;
      assert SamePlace(before.db, After(db, job, n).db, d) || TargetOf(job, n - 1) == Some(d);
    }
  }

  // ----- the diagram -----

  ghost predicate SameOnCovered(a: Db, b: Db, covered: seq<Uuid>) {
    forall d :: OnCovered(a, covered, d) || OnCovered(b, covered, d) ==> SamePlace(a, b, d)
  }

  /** New identifiers are unlike each other, unlike any row's and named by no line. */
  ghost predicate Unused(db: Db, job: Job) {
    && |job.items| == |job.minted|
    && (forall m, n :: 0 <= m < n < |job.minted| ==> job.minted[m].id != job.minted[n].id)
    && (forall m :: 0 <= m < |job.minted| ==> job.minted[m].id !in db.devices)
    && (forall m, n :: 0 <= m < |job.minted| && 0 <= n < |job.items| ==>
          job.items[n].line.source != Some(job.minted[m].id))
  }

  /** A plan made on `seen` and carried out on `found`, where the covered racks still look the same. */
  datatype Import = Import(
    seen: Db, found: Db, covered: seq<Uuid>, lines: seq<Line>, sources: seq<Option<Uuid>>, job: Job)
  {
    ghost predicate Sound() {
      && Planned(seen, covered, lines, sources, job.items)
      && SameOnCovered(seen, found, covered)
      && Constrained(found)
      && (forall d :: d in seen.devices ==> d in found.devices)
      && Unused(found, job)
      && After(found, job, |job.items|).Ok?
    }

    function Result(): Db
      requires |job.items| == |job.minted| && After(found, job, |job.items|).Ok?
    {
      After(found, job, |job.items|).db
    }

    /** The device that stands for a line of the diagram. */
    function DeviceOf(n: nat): Uuid
      requires n < |lines| == |sources| <= |job.items| == |job.minted|
    {
      if sources[n].Some? then sources[n].value else job.minted[n].id
    }

    /** Every line's device is where the line says. */
    ghost predicate Realised()
      requires Sound()
    {
      forall n :: 0 <= n < |lines| ==> SitsAs(Result(), DeviceOf(n), lines[n])
    }

    /** Lines that stand for the same device agree, and a device that is to move is named by its own identifier. */
    ghost predicate Consistent()
      requires |lines| == |sources| <= |job.items| == |job.minted|
    {
      && (forall m, n :: 0 <= m < |lines| && 0 <= n < |lines| && DeviceOf(m) == DeviceOf(n) ==>
            lines[m].rack == lines[n].rack && lines[m].startU == lines[n].startU && lines[m].endU == lines[n].endU)
      && (forall n :: 0 <= n < |lines| && job.items[n].kind.MoveExisting? ==> lines[n].source == sources[n])
    }
  }

  lemma LineOf(im: Import, n: nat)
    requires im.Sound() && n < |im.lines|
    ensures var item := im.job.items[n];
            && item.line == im.lines[n] && !item.requiresDecision && Valid(im.covered, im.lines[n])
            && Resolves(im.seen, im.covered, im.lines[n], im.sources[n])
            && item.kind == KindOf(im.seen, im.lines[n], im.sources[n])
    ensures im.DeviceOf(n) in im.seen.devices <==> im.sources[n].Some?
  {
    hide CommitItem, Constrained, SameOnCovered;
    LastMoveDecides(im.found, im.job, |im.job.items|, im.DeviceOf(n));
    hide CommitFirst;
    assert PlannedLine(im.seen, im.covered, im.lines[n], n, im.sources[n], im.job.items[n]);
  }

  lemma MissingOf(im: Import, m: nat) returns (d: Uuid)
    requires im.Sound() && |im.lines| <= m < |im.job.items|
    ensures Missing(im.seen, im.covered, im.sources, d) && im.job.items[m] == MissingItem(im.seen, d)
    ensures d in im.found.at && im.found.at[d] == im.seen.at[d] && d in im.found.devices
    ensures forall n :: 0 <= n < |im.lines| ==> im.DeviceOf(n) != d
  {
    hide After;
    var item := im.job.items[m];
    d :| Missing(im.seen, im.covered, im.sources, d) && item == MissingItem(im.seen, d);
    forall n | 0 <= n < |im.lines|
      ensures im.DeviceOf(n) != d
    {
      if im.sources[n].Some? {
        assert im.sources[n] in im.sources;
      } else {
        assert im.job.minted[n].id !in im.found.devices;
      }
    }
  }

  /** In a consistent import, only items of lines move the device of a line. */
  lemma MoverOfLine(im: Import, m: nat, n: nat)
    requires im.Sound() && im.Consistent() && m < |im.job.items| && n < |im.lines|
    requires TargetOf(im.job, m) == Some(im.DeviceOf(n))
    ensures m < |im.lines| && im.DeviceOf(m) == im.DeviceOf(n)
    ensures im.job.items[m].kind.CreateNew? || im.job.items[m].kind.MoveExisting?
  {
    hide After, SameOnCovered, Constrained;
    if m < |im.lines| {
      LineOf(im, m);
    } else {
      var d := MissingOf(im, m);
    }
  }

  lemma UnmovedLine(im: Import, n: nat)
    requires im.Sound() && im.Consistent() && n < |im.lines|
    requires LastMove(im.job, |im.job.items|, im.DeviceOf(n)) == None
    ensures SitsAs(im.found, im.DeviceOf(n), im.lines[n])
  {
    LineOf(im, n);
    hide After, Resolves, Unused, Constrained;
    assert TargetOf(im.job, n) != Some(im.DeviceOf(n));
    assert SitsAs(im.seen, im.DeviceOf(n), im.lines[n]);
    assert OnCovered(im.seen, im.covered, im.DeviceOf(n));
  }

  lemma ConsistentRealises(im: Import)
    requires im.Sound() && im.Consistent()
    ensures im.Realised()
  {
    forall n | 0 <= n < |im.lines|
      ensures SitsAs(im.Result(), im.DeviceOf(n), im.lines[n])
    {
      var d := im.DeviceOf(n);
      LastMoveDecides(im.found, im.job, |im.job.items|, d);
      match LastMove(im.job, |im.job.items|, d)
      case None => UnmovedLine(im, n);
      case Some(m) =>
        MoverOfLine(im, m, n);
        LineOf(im, m);
    }
  }

  /** An item that moves a device its line names, but not live when the plan was made: the line resolves otherwise. */
  lemma MoverOfDead(im: Import, m: nat, d: Uuid, n: nat)
    requires im.Sound() && m < |im.job.items| && TargetOf(im.job, m) == Some(d) && !Live(im.seen, d)
    requires n < |im.lines| && im.lines[n].source == Some(d)
    ensures m < |im.lines| && im.job.items[m].kind.MoveExisting?
    ensures im.sources[m].Some? && im.sources[m].value != d && im.DeviceOf(m) != d
  {
    LineOf(im, n);
    if m < |im.lines| {
      LineOf(im, m);
    } else {
      var missing := MissingOf(im, m);
    }
  }

  lemma RealisedIsConsistent(im: Import)
    requires im.Sound() && im.Realised()
    ensures im.Consistent()
  {
    forall n | 0 <= n < |im.lines| && im.job.items[n].kind.MoveExisting?
      ensures im.lines[n].source == im.sources[n]
    {
      LineOf(im, n);
      LastMoveDecides(im.found, im.job, |im.job.items|, im.DeviceOf(n));
      if im.lines[n].source != im.sources[n] {
        StrayMove(im, n);
      }
    }
  }

  /** Moving a device that is gone takes the place of the device that the line stands for. */
  lemma StrayMove(im: Import, n: nat)
    requires im.Sound() && n < |im.lines| && im.job.items[n].kind.MoveExisting? && im.lines[n].source != im.sources[n]
    ensures !im.Realised()
  {
    LineOf(im, n);
    MoveNames(im, n);
    var d := im.lines[n].source.value;
    LastMoveDecides(im.found, im.job, |im.job.items|, d);
    var m := LastMove(im.job, |im.job.items|, d).value;
    MoverOfDead(im, m, d, n);
    LineOf(im, m);
    assert SitsAs(im.Result(), d, im.lines[m]);
    assert forall e | e in im.Result().at && e != d :: !Overlap(im.Result().at[d], im.Result().at[e]);
    assert !SitsAs(im.Result(), im.DeviceOf(m), im.lines[m]);
  }

  /** A move that succeeds names some device. */
  lemma MoveNames(im: Import, n: nat)
    requires im.Sound() && n < |im.lines| && im.job.items[n].kind.MoveExisting?
    ensures im.job.items[n].line.source.Some? && im.job.items[n].line == im.lines[n]
    ensures TargetOf(im.job, n) == im.lines[n].source
  {
    LineOf(im, n);
    ItemSucceeds(im.found, im.job, |im.job.items|, n);
  }

  lemma {:induction false} ItemSucceeds(db: Db, job: Job, k: nat, n: nat)
    requires n < k <= |job.items| == |job.minted| && After(db, job, k).Ok?
    ensures After(db, job, n).Ok? && After(db, job, n + 1).Ok?
    ensures job.items[n].kind.MoveExisting? ==> job.items[n].line.source.Some?
  {
    hide CommitItem;
    PrefixSucceeds(db, job, k);
    if n < k - 1 {
      ItemSucceeds(db, job, k - 1, n);
    } else {
      hide After;
      var choice := ChoiceFor(job.choices, job.items[n].key);
      MoveItem(After(db, job, n), job.items[n], choice, job.minted[n], job.defaultType);
    }
  }

  lemma MoveItem(before: Result, item: Item, choice: Option<Choice>, minted: Minted, type0: Option<Uuid>)
    requires before.Ok? && CommitItem(before.db, item, choice, minted, type0).Ok?
    ensures item.kind.MoveExisting? ==> item.line.source.Some?
  {
    if item.kind.MoveExisting? {
      hide PlaceDevice;
    }
  }

  /**
   * A successful import puts every device of the diagram where the diagram shows it if and only if rows for
   * the same device agree and no row moves its device by code alone.
   */
  lemma RealisedIffConsistent(im: Import)
    requires im.Sound()
    ensures im.Realised() <==> im.Consistent()
  {
    if im.Consistent() {
      ConsistentRealises(im);
    }
    if im.Realised() {
      RealisedIsConsistent(im);
    }
  }

  /** A rack with one device, and the row of another device that was deleted. */
  function StrayTables(rack: Uuid, gone: Uuid, here: Uuid): Db {
    Db(map[gone := Device("A", "a", "", 1, Inventory.OffRack, 1, true),
           here := Device("B", "b", "", 1, Inventory.Running, 1, false)],
       map[rack := Rack(rack, 42, false)], map[here := Place(rack, 1, 1, 1)])
  }

  /** A diagram row that names the deleted device but carries the code of the live one. */
  function StrayLine(rack: Uuid, gone: Uuid): Line {
    Line("b", Some(rack), 3, 3, "", Some(gone), "B", None)
  }

  function StrayItem(rack: Uuid, gone: Uuid): Item {
    Item(LineKey(0), MoveExisting, StrayLine(rack, gone), false)
  }

  lemma StrayPlan(rack: Uuid, gone: Uuid, here: Uuid)
    requires gone != here
    ensures Planned(
              StrayTables(rack, gone, here), [rack], [StrayLine(rack, gone)], [Some(here)], [StrayItem(rack, gone)])
  {
    var db, line := StrayTables(rack, gone, here), StrayLine(rack, gone);
    assert "b"[0] == 'b' && 'b' !in WHITESPACE && rack in [rack];
    assert Valid([rack], line);
    assert HasCode(db, [rack], here, "B");
    assert PlannedLine(db, [rack], line, 0, Some(here), StrayItem(rack, gone));
    forall d
      ensures !Missing(db, [rack], [Some(here)], d)
    {
      assert Some(here) in [Some(here)];
    }
    hide PlannedLine;
  }

  lemma StrayCommit(rack: Uuid, gone: Uuid, here: Uuid, unused: Minted)
    requires gone != here
    ensures CommitFirst(StrayTables(rack, gone, here), [StrayItem(rack, gone)], 1, map[], [unused], None).Ok?
  {
    var db, item := StrayTables(rack, gone, here), StrayItem(rack, gone);
    assert CommitFirst(db, [item], 0, map[], [unused], None) == Ok(db);
    assert CommitItem(db, item, None, unused, None) == PlaceDevice(db, gone, rack, 3, 1);
  }

  /**
   * The plan for such a row moves the live device, and the commit puts the deleted one in its place: the
   * import succeeds and the diagram is not realised.
   */
  lemma MovedByCodeAlone(rack: Uuid, gone: Uuid, here: Uuid, unused: Minted) returns (im: Import)
    requires gone != here && unused.id != gone && unused.id != here
    ensures im.seen == StrayTables(rack, gone, here) && im.lines == [StrayLine(rack, gone)]
    ensures im.Sound() && !im.Realised()
  {
    var db, item := StrayTables(rack, gone, here), StrayItem(rack, gone);
    im := Import(db, db, [rack], [StrayLine(rack, gone)], [Some(here)], Job([item], map[], [unused], None));
    StrayPlan(rack, gone, here);
    StrayCommit(rack, gone, here, unused);
    hide Planned, CommitFirst;
    assert im.Sound();
    assert im.job.items[0].kind.MoveExisting? && im.lines[0].source != im.sources[0];
    RealisedIffConsistent(im);
  }

  /** The operator has the missing device taken out. */
  ghost predicate TakenOut(im: Import, d: Uuid) {
    Missing(im.seen, im.covered, im.sources, d) && ChoiceFor(im.job.choices, MissingKey(d)) == Some(Decommission)
  }

  ghost predicate OnDiagram(im: Import, d: Uuid)
    requires |im.lines| == |im.sources| <= |im.job.items| == |im.job.minted|
  {
    exists n :: 0 <= n < |im.lines| && im.DeviceOf(n) == d
  }

  /** A device off the diagram moves only if it is taken out. */
  lemma OffDiagram(im: Import, d: Uuid)
    requires im.Sound() && im.Consistent() && !OnDiagram(im, d)
    ensures if TakenOut(im, d) then d !in im.Result().at else SamePlace(im.found, im.Result(), d)
  {
    LastMoveDecides(im.found, im.job, |im.job.items|, d);
    var last := LastMove(im.job, |im.job.items|, d);
    if last.Some? {
      OffDiagramMover(im, last.value, d);
    }
    if TakenOut(im, d) {
      TakenOutIsMoved(im, d);
    }
  }

  lemma TakenOutIsMoved(im: Import, d: Uuid)
    requires im.Sound() && TakenOut(im, d)
    ensures LastMove(im.job, |im.job.items|, d).Some?
  {
    hide After, SameOnCovered, Constrained;
    var tail := im.job.items[|im.lines|..];
    var i :| 0 <= i < |tail| && tail[i] == MissingItem(im.seen, d);
    var m := |im.lines| + i;
    assert im.job.items[m] == tail[i];
    assert TargetOf(im.job, m) == Some(d);
  }

  lemma MoverOnDiagram(im: Import, m: nat, d: Uuid)
    requires im.Sound() && im.Consistent() && m < |im.lines| && TargetOf(im.job, m) == Some(d)
    ensures OnDiagram(im, d)
  {
    LineOf(im, m);
    assert im.DeviceOf(m) == d;
  }

  lemma OffDiagramMover(im: Import, m: nat, d: Uuid)
    requires im.Sound() && im.Consistent() && !OnDiagram(im, d) && m < |im.job.items|
    requires TargetOf(im.job, m) == Some(d)
    ensures TakenOut(im, d) && im.job.items[m].kind.RemoveMissing?
  {
    hide After, OnDiagram;
    if m < |im.lines| {
      MoverOnDiagram(im, m, d);
    } else {
      var missing := MissingOf(im, m);
    }
  }

  /**
   * What is on the covered racks after a consistent import: the devices of the diagram, each where its row
   * says, and whatever was there before, is not on the diagram and was not taken out.
   */
  lemma CoveredRacksShowDiagram(im: Import, d: Uuid)
    requires im.Sound() && im.Consistent()
    ensures OnCovered(im.Result(), im.covered, d) <==>
            OnDiagram(im, d) || (OnCovered(im.found, im.covered, d) && !TakenOut(im, d))
    ensures forall n | 0 <= n < |im.lines| && im.DeviceOf(n) == d :: SitsAs(im.Result(), d, im.lines[n])
    ensures !OnDiagram(im, d) && !TakenOut(im, d) ==> SamePlace(im.found, im.Result(), d)
  {
    ConsistentRealises(im);
    if OnDiagram(im, d) {
      var n :| 0 <= n < |im.lines| && im.DeviceOf(n) == d;
      LineOf(im, n);
      assert SitsAs(im.Result(), d, im.lines[n]);
    } else {
      OffDiagram(im, d);
    }
  }

  // ----- the staleness check -----

  predicate RowOf(db: Db, r: Row) {
    r.device in db.at && db.at[r.device] == Place(r.rack, r.startU, r.endU, r.heightU)
  }

  /** The positions on the given racks; a rack that is given twice counts twice. */
  ghost predicate PositionRows(db: Db, racks: seq<Uuid>, rows: seq<Row>) {
    forall r :: multiset(rows)[r] == if RowOf(db, r) then multiset(racks)[r.rack] else 0
  }

  lemma RowsDistinguishable(db: Db, racks: seq<Uuid>, rows: seq<Row>)
    requires PositionRows(db, racks, rows)
    ensures Distinguishable(multiset(rows))
  {
    forall x, y | x in multiset(rows) && y in multiset(rows) && x.device == y.device
      ensures x == y
    {
      assert RowOf(db, x) && RowOf(db, y);
    }
  }

  /** The commit finds its plan stale exactly if a position on a covered rack has changed. */
  lemma StaleIffMoved(seen: Db, found: Db, covered: seq<Uuid>, before: seq<Row>, now: seq<Row>)
    requires PositionRows(seen, covered, before) && PositionRows(found, covered, now)
    ensures Text(Sort(before)) == Text(Sort(now)) <==> SameOnCovered(seen, found, covered)
  {
    RowsDistinguishable(seen, covered, before);
    RowsDistinguishable(found, covered, now);
    SortSorts(before);
    SortSorts(now);
    SameTextIffSameRows(before, now, Sort(before), Sort(now));
    hide Text, Sort, Sorted;
    if multiset(before) == multiset(now) {
      SameRowsSamePlaces(seen, found, covered, before, now);
    }
    if SameOnCovered(seen, found, covered) {
      SamePlacesSameRows(seen, found, covered, before, now);
    }
  }

  lemma SameRowsSamePlaces(a: Db, b: Db, covered: seq<Uuid>, before: seq<Row>, now: seq<Row>)
    requires PositionRows(a, covered, before) && PositionRows(b, covered, now) && multiset(before) == multiset(now)
    ensures SameOnCovered(a, b, covered)
  {
    forall d | OnCovered(a, covered, d) || OnCovered(b, covered, d)
      ensures SamePlace(a, b, d)
    {
      var p := if OnCovered(a, covered, d) then a.at[d] else b.at[d];
      var r := Row(p.rack, p.startU, p.endU, d, p.heightU);
      assert p.rack in multiset(covered);
      assert RowOf(a, r) <==> RowOf(b, r) by {
        assert multiset(before)[r] == multiset(now)[r];
      }
    }
  }

  lemma SamePlacesSameRows(a: Db, b: Db, covered: seq<Uuid>, before: seq<Row>, now: seq<Row>)
    requires PositionRows(a, covered, before) && PositionRows(b, covered, now) && SameOnCovered(a, b, covered)
    ensures multiset(before) == multiset(now)
  {
    forall r: Row
      ensures multiset(before)[r] == multiset(now)[r]
    {
      assert r.rack in multiset(covered) <==> r.rack in covered;
      assert OnCovered(a, covered, r.device) || OnCovered(b, covered, r.device) ==> SamePlace(a, b, r.device);
    }
  }
}
