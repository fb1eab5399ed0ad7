// The two-phase import of a rack diagram: a plan made from the tables as they are, and a commit
// that carries it out in one transaction. The commit takes no locks and writes no history; the
// database's exclusion constraint is what keeps positions apart.

module RackImport {
  import opened Wrappers
  import opened Fingerprint
  import Inventory

  datatype Device = Device(
    code: string, name: string, serial: string, heightU: int, lifecycle: Inventory.Lifecycle, version: nat,
    deleted: bool)

  datatype Rack = Rack(room: Uuid, uHeight: int, deleted: bool)

  datatype Place = Place(rack: Uuid, startU: int, endU: int, heightU: int)

  /** The live position rows are keyed by their device, since a device has at most one. */
  datatype Db = Db(devices: map<Uuid, Device>, racks: map<Uuid, Rack>, at: map<Uuid, Place>)

  /** A row of the diagram; an identifier that is missing or malformed is `None`. */
  datatype Line = Line(
    name: string, rack: Option<Uuid>, startU: int, endU: int, serial: string, source: Option<Uuid>, sourceCode: string,
    typeId: Option<Uuid>)

  datatype Kind = Unchanged | CreateNew | UpdateExisting | MoveExisting | RemoveMissing | NeedsDecision | Blocked

  datatype Key = LineKey(n: nat) | MissingKey(device: Uuid)

  datatype Item = Item(key: Key, kind: Kind, line: Line, requiresDecision: bool)

  datatype Choice = Update | Create | Decommission | Ignore | Skip | OtherChoice(text: string)

  datatype Error =
    | BlockingError | BadRemoval | DecisionMissing | UnknownDecision | MalformedId | TypeMissing | RackNotFound
    | AboveRack
    | DeviceNotFound | NotPlaced | ConstraintViolated

  datatype Tally = Tally(created: nat, updated: nat, moved: nat, decommissioned: nat, ignored: nat)

  datatype Result = Ok(db: Db) | Err(error: Error)

  /** The identifier and the code that a created device gets. */
  datatype Minted = Minted(id: Uuid, code: string)

  const WHITESPACE := {' ', '\t', '\n', '\r', '\U{0B}', '\U{0C}', '\U{85}', '\U{A0}'}

  predicate Blank(s: string) {
    forall c | c in s :: c in WHITESPACE
  }

  predicate Live(db: Db, d: Uuid) {
    d in db.devices && !db.devices[d].deleted
  }

  predicate LiveRack(db: Db, r: Uuid) {
    r in db.racks && !db.racks[r].deleted
  }

  predicate Overlap(p: Place, q: Place) {
    p.rack == q.rack && p.startU <= q.endU && q.startU <= p.endU
  }

  // ----- phase one: the plan -----

  predicate Valid(covered: seq<Uuid>, line: Line) {
    !Blank(line.name) && line.rack.Some? && line.rack.value in covered && 1 <= line.startU <= line.endU
  }

  predicate SitsAs(db: Db, d: Uuid, line: Line) {
    d in db.at && Some(db.at[d].rack) == line.rack && db.at[d].startU == line.startU && db.at[d].endU == line.endU
  }

  predicate SameMeta(device: Device, line: Line) {
    device.name == line.name && (line.serial == "" || device.serial == line.serial)
  }

  predicate OnCovered(db: Db, covered: seq<Uuid>, d: Uuid) {
    d in db.at && db.at[d].rack in covered
  }

  predicate HasCode(db: Db, covered: seq<Uuid>, d: Uuid, code: string) {
    OnCovered(db, covered, d) && Live(db, d) && db.devices[d].code == code
  }

  /** The device that a line stands for: by its identifier, or else by its code among the covered racks. */
  ghost predicate Resolves(db: Db, covered: seq<Uuid>, line: Line, src: Option<Uuid>) {
    if line.source.Some? && Live(db, line.source.value) then src == line.source
    else if src.Some? then line.sourceCode != "" && HasCode(db, covered, src.value, line.sourceCode)
    else line.sourceCode == "" || forall d :: !HasCode(db, covered, d, line.sourceCode)
  }

  function KindOf(db: Db, line: Line, src: Option<Uuid>): Kind
    requires src.Some? ==> Live(db, src.value)
  {
    if src.None? then CreateNew
    else if !SitsAs(db, src.value, line) then MoveExisting
    else if SameMeta(db.devices[src.value], line) then Unchanged
    else UpdateExisting
  }

  function MissingItem(db: Db, d: Uuid): Item
    requires d in db.at && d in db.devices
  {
    var p := db.at[d];
    var line := Line(db.devices[d].name, Some(p.rack), p.startU, p.endU, "", Some(d), "", None);
    Item(MissingKey(d), RemoveMissing, line, true)
  }

  ghost predicate PlannedLine(db: Db, covered: seq<Uuid>, line: Line, n: nat, src: Option<Uuid>, item: Item) {
    if Valid(covered, line) then
      && Resolves(db, covered, line, src)
      && item == Item(LineKey(n), KindOf(db, line, src), line, false)
    else src == None && item == Item(LineKey(n), Blocked, line, false)
  }

  /** On a covered rack, but the source of no line. */
  ghost predicate Missing(db: Db, covered: seq<Uuid>, sources: seq<Option<Uuid>>, d: Uuid) {
    OnCovered(db, covered, d) && Live(db, d) && Some(d) !in sources
  }

  ghost predicate IsMissing(db: Db, covered: seq<Uuid>, sources: seq<Option<Uuid>>, item: Item) {
    exists d :: Missing(db, covered, sources, d) && item == MissingItem(db, d)
  }

  /** One item for each line, then items for exactly the missing devices. */
  ghost predicate Planned(db: Db, covered: seq<Uuid>, lines: seq<Line>, sources: seq<Option<Uuid>>, items: seq<Item>) {
    && |lines| == |sources| <= |items|
    && (forall n :: 0 <= n < |lines| ==> PlannedLine(db, covered, lines[n], n, sources[n], items[n]))
    && (forall m :: |lines| <= m < |items| ==> IsMissing(db, covered, sources, items[m]))
    && (forall d :: Missing(db, covered, sources, d) ==> MissingItem(db, d) in items[|lines|..])
  }

  // ----- phase two: the commit -----

  function Retired(db: Db, d: Uuid, lifecycle: Inventory.Lifecycle): Db {
    if Live(db, d)
    then db.(devices := db.devices[d := db.devices[d].(lifecycle := lifecycle, version := db.devices[d].version + 1)])
    else db
  }

  /** Puts a device into a rack, whatever rows or locks say about it; only the constraints stop it. */
  function PlaceDevice(db: Db, d: Uuid, rack: Uuid, startU: int, height: int): Result {
    var p := Place(rack, startU, startU + height - 1, height);
    if !LiveRack(db, rack) then Err(RackNotFound)
    else if p.endU > db.racks[rack].uHeight then Err(AboveRack)
    else if d !in db.devices || height < 1 then Err(ConstraintViolated)
    else if exists o :: o in db.at && o != d && Overlap(db.at[o], p) then Err(ConstraintViolated)
    else Ok(Retired(db.(at := db.at[d := p]), d, Inventory.Running))
  }

  function CommitCreate(db: Db, line: Line, minted: Minted, defaultType: Option<Uuid>): Result {
    var code := if line.sourceCode == "" then minted.code else line.sourceCode;
    var height := line.endU - line.startU + 1;
    if line.typeId.None? && defaultType.None? then Err(TypeMissing)
    else if line.rack.None? then Err(MalformedId)
    else if minted.id in db.devices || (exists o :: o in db.devices && Live(db, o) && db.devices[o].code == code)
    then Err(ConstraintViolated)
    else
      var device := Device(code, line.name, line.serial, height, Inventory.WaitingRack, 1, false);
      PlaceDevice(db.(devices := db.devices[minted.id := device]), minted.id, line.rack.value, line.startU, height)
  }

  function Renamed(device: Device, line: Line): Device {
    device.(name := if line.name == "" then device.name else line.name,
            serial := if line.serial == "" then device.serial else line.serial, version := device.version + 1)
  }

  function CommitUpdate(db: Db, line: Line): Result {
    if line.source.None? then Err(MalformedId)
    else if !Live(db, line.source.value) then Err(DeviceNotFound)
    else
      var d := line.source.value;
      Ok(db.(devices := db.devices[d := Renamed(db.devices[d], line)]))
  }

  function CommitMove(db: Db, line: Line): Result {
    if line.source.None? || line.rack.None? then Err(MalformedId)
    else PlaceDevice(db, line.source.value, line.rack.value, line.startU, line.endU - line.startU + 1)
  }

  function CommitRemoval(db: Db, line: Line): Result {
    if line.source.None? then Err(MalformedId)
    else if line.source.value !in db.at then Err(NotPlaced)
    else Ok(Retired(db.(at := db.at - {line.source.value}), line.source.value, Inventory.OffRack))
  }

  predicate Ignored(choice: Option<Choice>) {
    choice == Some(Ignore) || choice == Some(Skip)
  }

  function CommitItem(db: Db, item: Item, choice: Option<Choice>, minted: Minted, defaultType: Option<Uuid>): Result {
    match item.kind
    case Blocked => Err(BlockingError)
    case Unchanged => Ok(db)
    case CreateNew =>
      if item.requiresDecision && Ignored(choice) then Ok(db)
      else CommitCreate(db, item.line, minted, defaultType)
    case UpdateExisting => CommitUpdate(db, item.line)
    case MoveExisting => CommitMove(db, item.line)
    case RemoveMissing =>
      if choice.None? || Ignored(choice) then Ok(db)
      else if choice != Some(Decommission) then Err(BadRemoval)
      else CommitRemoval(db, item.line)
    case NeedsDecision =>
      if Ignored(choice) then Ok(db)
      else if choice == Some(Update) then CommitUpdate(db, item.line)
      else if choice == Some(Create) then CommitCreate(db, item.line, minted, defaultType)
      else if choice.None? then Err(DecisionMissing)
      else Err(UnknownDecision)
  }

  function ChoiceFor(choices: map<Key, Choice>, key: Key): Option<Choice> {
    if key in choices then Some(choices[key]) else None
  }

  /** Which counter a committed item raises. */
  function Counted(tally: Tally, item: Item, choice: Option<Choice>): Tally {
    var ignoring := tally.(ignored := tally.ignored + 1);
    match item.kind
    case CreateNew =>
      if item.requiresDecision && Ignored(choice) then ignoring else tally.(created := tally.created + 1)
    case UpdateExisting => tally.(updated := tally.updated + 1)
    case MoveExisting => tally.(moved := tally.moved + 1)
    case RemoveMissing =>
      if choice == Some(Decommission) then tally.(decommissioned := tally.decommissioned + 1) else ignoring
    case NeedsDecision =>
      if choice == Some(Update) then tally.(updated := tally.updated + 1)
      else if choice == Some(Create) then tally.(created := tally.created + 1)
      else ignoring
    case _ => tally
  }

  function CountFirst(items: seq<Item>, n: nat, choices: map<Key, Choice>): Tally
    requires n <= |items|
  {
    if n == 0 then Tally(0, 0, 0, 0, 0)
    else Counted(CountFirst(items, n - 1, choices), items[n - 1], ChoiceFor(choices, items[n - 1].key))
  }

  /** The first `n` items, one after another. */
  function CommitFirst(
    db: Db, items: seq<Item>, n: nat, choices: map<Key, Choice>, minted: seq<Minted>, defaultType: Option<Uuid>): Result
    requires n <= |items| == |minted|
  {
    if n == 0 then Ok(db)
    else
      var before := CommitFirst(db, items, n - 1, choices, minted, defaultType);
      if before.Err? then before
      else CommitItem(before.db, items[n - 1], ChoiceFor(choices, items[n - 1].key), minted[n - 1], defaultType)
  }
}
