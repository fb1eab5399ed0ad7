// What each item of an import does to the tables and when it can be done, read off the item and the tables alone,
// and what that means for whole imports.

module ImportOutcomes {
  import opened Wrappers
  import opened Fingerprint
  import opened RackImport
  import opened ImportProofs

  // ----- what an item is for -----

  predicate Creates(item: Item, choice: Option<Choice>) {
    || (item.kind == CreateNew && !(item.requiresDecision && choice in {Some(Ignore), Some(Skip)}))
    || (item.kind == NeedsDecision && choice == Some(Create))
  }

  predicate Updates(item: Item, choice: Option<Choice>) {
    item.kind == UpdateExisting || (item.kind == NeedsDecision && choice == Some(Update))
  }

  predicate Moves(item: Item, choice: Option<Choice>) {
    item.kind == MoveExisting
  }

  /** The item puts a device where its line says. */
  predicate Puts(item: Item, choice: Option<Choice>) {
    Moves(item, choice) || Creates(item, choice)
  }

  predicate TakesOut(item: Item, choice: Option<Choice>) {
    item.kind == RemoveMissing && choice == Some(Decommission)
  }

  predicate Passes(item: Item, choice: Option<Choice>) {
    || item.kind == Unchanged
    || (item.kind == CreateNew && item.requiresDecision && choice in {Some(Ignore), Some(Skip)})
    || (item.kind == RemoveMissing && choice in {None, Some(Ignore), Some(Skip)})
    || (item.kind == NeedsDecision && choice in {Some(Ignore), Some(Skip)})
  }

  // ----- when an item can be done -----

  ghost predicate StandsAt(db: Db, o: Uuid, rack: Uuid, u: int) {
    o in db.at && db.at[o].rack == rack && db.at[o].startU <= u <= db.at[o].endU
  }

  /** The device may stand there: in a live rack, within its height, on U's where no other device stands. */
  ghost predicate Room(db: Db, d: Uuid, line: Line) {
    && line.rack.Some? && line.rack.value in db.racks && !db.racks[line.rack.value].deleted
    && line.startU <= line.endU <= db.racks[line.rack.value].uHeight
    && forall o, u :: line.startU <= u <= line.endU && StandsAt(db, o, line.rack.value, u) ==> o == d
  }

  function CodeOf(line: Line, minted: Minted): string {
    if line.sourceCode == "" then minted.code else line.sourceCode
  }

  ghost predicate Succeeds(db: Db, item: Item, choice: Option<Choice>, minted: Minted, type0: Option<Uuid>) {
    var line := item.line;
    || Passes(item, choice)
    || (Updates(item, choice) && line.source.Some? && line.source.value in db.devices
        && !db.devices[line.source.value].deleted)
    || (item.kind == MoveExisting && line.source.Some? && line.source.value in db.devices
        && Room(db, line.source.value, line))
    || (TakesOut(item, choice) && line.source.Some? && line.source.value in db.at)
    || (Creates(item, choice) && (line.typeId.Some? || type0.Some?) && minted.id !in db.devices
        && (forall o :: o in db.devices && !db.devices[o].deleted ==> db.devices[o].code != CodeOf(line, minted))
        && Room(db, minted.id, line))
  }

  // ----- what an item leaves -----

  ghost predicate OnlyRow(db: Db, db': Db, d: Uuid) {
    forall x :: x != d ==> (x in db'.devices <==> x in db.devices) &&
                           (x in db.devices && x in db'.devices ==> db'.devices[x] == db.devices[x])
  }

  /** The device, unless it is deleted, has this lifecycle and the next version; no other row has changed. */
  ghost predicate Turned(db: Db, db': Db, d: Uuid, lifecycle: Inventory.Lifecycle) {
    && OnlyRow(db, db', d) && (d in db'.devices <==> d in db.devices)
    && (d in db.devices && d in db'.devices ==>
          var was := db.devices[d];
          db'.devices[d] ==
            if was.deleted then was
            else Device(was.code, was.name, was.serial, was.heightU, lifecycle, was.version + 1, false))
  }

  ghost predicate Leaves(db: Db, item: Item, choice: Option<Choice>, minted: Minted, db': Db) {
    var line := item.line;
    && db'.racks == db.racks
    && (Passes(item, choice) ==> db' == db)
    && (Updates(item, choice) ==>
          && db'.at == db.at && line.source.Some? && OnlyRow(db, db', line.source.value)
          && line.source.value in db.devices && line.source.value in db'.devices
          && var was := db.devices[line.source.value];
             db'.devices[line.source.value] ==
               Device(was.code, if line.name == "" then was.name else line.name,
                      if line.serial == "" then was.serial else line.serial, was.heightU, was.lifecycle,
                      was.version + 1, was.deleted))
    && (item.kind == MoveExisting ==>
          && line.source.Some? && line.rack.Some?
          && db'.at == db.at[line.source.value :=
                               Place(line.rack.value, line.startU, line.endU, line.endU - line.startU + 1)]
          && Turned(db, db', line.source.value, Inventory.Running))
    && (TakesOut(item, choice) ==>
          line.source.Some? && db'.at == db.at - {line.source.value} &&
          Turned(db, db', line.source.value, Inventory.OffRack))
    && (Creates(item, choice) ==>
          && line.rack.Some? && OnlyRow(db, db', minted.id) && minted.id in db'.devices
          && db'.at == db.at[minted.id := Place(line.rack.value, line.startU, line.endU, line.endU - line.startU + 1)]
          && db'.devices[minted.id] ==
               Device(CodeOf(line, minted), line.name, line.serial, line.endU - line.startU + 1, Inventory.Running, 2,
                      false))
  }

  // ----- one item -----

  /** In constrained tables two places overlap exactly if they share a U. */
  lemma FreeMeans(db: Db, d: Uuid, p: Place)
    requires Constrained(db) && p.startU <= p.endU
    ensures (exists o :: o in db.at && o != d && Overlap(db.at[o], p)) <==>
            exists o, u :: p.startU <= u <= p.endU && StandsAt(db, o, p.rack, u) && o != d
  {
    if o :| o in db.at && o != d && Overlap(db.at[o], p) {
      var u := if p.startU < db.at[o].startU then db.at[o].startU else p.startU;
      assert StandsAt(db, o, p.rack, u);
    }
    if o, u :| p.startU <= u <= p.endU && StandsAt(db, o, p.rack, u) && o != d {
      assert Overlap(db.at[o], p);
    }
  }

  lemma SamePlacesSameRoom(db: Db, db': Db, d: Uuid, line: Line)
    requires db'.at == db.at && db'.racks == db.racks
    ensures Room(db', d, line) <==> Room(db, d, line)
  {
    assert forall o, rack, u :: StandsAt(db', o, rack, u) <==> StandsAt(db, o, rack, u);
    hide StandsAt;
  }

  lemma RoomNeedsRack(db: Db, d: Uuid, line: Line)
    ensures Room(db, d, line) ==> line.rack.Some?
  {
  }

  lemma PlaceOutcome(db: Db, d: Uuid, line: Line)
    requires Constrained(db) && line.rack.Some?
    ensures var placed := PlaceDevice(db, d, line.rack.value, line.startU, line.endU - line.startU + 1);
            && (placed.Ok? <==> d in db.devices && Room(db, d, line))
            && (placed.Ok? ==>
                  && placed.db.racks == db.racks
                  && placed.db.at ==
                       db.at[d := Place(line.rack.value, line.startU, line.endU, line.endU - line.startU + 1)]
                  && Turned(db, placed.db, d, Inventory.Running))
  {
    if line.startU <= line.endU {
      FreeMeans(db, d, Place(line.rack.value, line.startU, line.endU, line.endU - line.startU + 1));
    }
    hide Constrained, Overlap, StandsAt;
  }

  lemma CreateOutcome(db: Db, line: Line, minted: Minted, type0: Option<Uuid>)
    requires Constrained(db)
    ensures var created := CommitCreate(db, line, minted, type0);
            && (created.Ok? <==>
                  && (line.typeId.Some? || type0.Some?) && minted.id !in db.devices
                  && (forall o :: o in db.devices && !db.devices[o].deleted ==>
                        db.devices[o].code != CodeOf(line, minted))
                  && Room(db, minted.id, line))
            && (created.Ok? ==>
                  && created.db.racks == db.racks && OnlyRow(db, created.db, minted.id)
                  && minted.id in created.db.devices
                  && created.db.at ==
                       db.at[minted.id :=
                               Place(line.rack.value, line.startU, line.endU, line.endU - line.startU + 1)]
                  && created.db.devices[minted.id] ==
                       Device(CodeOf(line, minted), line.name, line.serial, line.endU - line.startU + 1,
                              Inventory.Running, 2, false))
  {
    hide PlaceDevice, Room, Overlap;
    RoomNeedsRack(db, minted.id, line);
    if line.rack.Some? && minted.id !in db.devices {
      var height := line.endU - line.startU + 1;
      var device := Device(CodeOf(line, minted), line.name, line.serial, height, Inventory.WaitingRack, 1, false);
      var wider := db.(devices := db.devices[minted.id := device]);
      assert Constrained(wider);
      PlaceOutcome(wider, minted.id, line);
      SamePlacesSameRoom(db, wider, minted.id, line);
    }
    hide Constrained, Room;
  }

  lemma UpdateOutcome(db: Db, item: Item, choice: Option<Choice>, minted: Minted, type0: Option<Uuid>)
    requires Updates(item, choice)
    ensures CommitItem(db, item, choice, minted, type0) == CommitUpdate(db, item.line)
    ensures CommitUpdate(db, item.line).Ok? <==> Succeeds(db, item, choice, minted, type0)
    ensures CommitUpdate(db, item.line).Ok? ==> Leaves(db, item, choice, minted, CommitUpdate(db, item.line).db)
  {
    hide CommitCreate, Room;
  }

  lemma RemovalOutcome(db: Db, item: Item, choice: Option<Choice>, minted: Minted, type0: Option<Uuid>)
    requires TakesOut(item, choice)
    ensures CommitItem(db, item, choice, minted, type0) == CommitRemoval(db, item.line)
    ensures CommitRemoval(db, item.line).Ok? <==> Succeeds(db, item, choice, minted, type0)
    ensures CommitRemoval(db, item.line).Ok? ==> Leaves(db, item, choice, minted, CommitRemoval(db, item.line).db)
  {
    hide Room;
  }

  /** An item is done exactly when the tables allow what it is for, and leaves exactly that. */
  lemma ItemOutcome(db: Db, item: Item, choice: Option<Choice>, minted: Minted, type0: Option<Uuid>)
    requires Constrained(db)
    ensures CommitItem(db, item, choice, minted, type0).Ok? <==> Succeeds(db, item, choice, minted, type0)
    ensures CommitItem(db, item, choice, minted, type0).Ok? ==>
              Leaves(db, item, choice, minted, CommitItem(db, item, choice, minted, type0).db)
  {
    hide Constrained, Room, PlaceDevice, Turned;
    if item.line.source.Some? {
      RoomNeedsRack(db, item.line.source.value, item.line);
    }
    if Updates(item, choice) {
      hide Succeeds, Leaves, CommitUpdate;
      UpdateOutcome(db, item, choice, minted, type0);
    } else if TakesOut(item, choice) {
      hide Succeeds, Leaves, CommitRemoval;
      RemovalOutcome(db, item, choice, minted, type0);
    } else if Creates(item, choice) {
      hide CommitCreate;
      CreateOutcome(db, item.line, minted, type0);
    } else if item.kind == MoveExisting && item.line.source.Some? && item.line.rack.Some? {
      PlaceOutcome(db, item.line.source.value, item.line);
    }
  }

  /** The reason given for not doing an item is one. */
  ghost predicate Refused(
    db: Db, item: Item, choice: Option<Choice>, minted: Minted, type0: Option<Uuid>, error: Error)
  {
    var line := item.line;
    match error
    case BlockingError => item.kind == Blocked
    case BadRemoval => item.kind == RemoveMissing && choice !in {None, Some(Ignore), Some(Skip), Some(Decommission)}
    case DecisionMissing => item.kind == NeedsDecision && choice == None
    case UnknownDecision =>
      item.kind == NeedsDecision && choice !in {None, Some(Ignore), Some(Skip), Some(Update), Some(Create)}
    case MalformedId => line.source.None? || line.rack.None?
    case TypeMissing => Creates(item, choice) && line.typeId.None? && type0.None?
    case RackNotFound =>
      Puts(item, choice) && line.rack.Some? && (line.rack.value in db.racks ==> db.racks[line.rack.value].deleted)
    case AboveRack =>
      && Puts(item, choice) && line.rack.Some? && line.rack.value in db.racks
      && db.racks[line.rack.value].uHeight < line.endU
    case DeviceNotFound =>
      && Updates(item, choice) && line.source.Some?
      && (line.source.value in db.devices ==> db.devices[line.source.value].deleted)
    case NotPlaced => TakesOut(item, choice) && line.source.Some? && line.source.value !in db.at
    case ConstraintViolated =>
      && Puts(item, choice)
      && (|| line.endU < line.startU
          || (Moves(item, choice) && line.source.Some? && line.source.value !in db.devices)
          || (Creates(item, choice)
              && (minted.id in db.devices
                  || exists o :: o in db.devices && !db.devices[o].deleted
                                 && db.devices[o].code == CodeOf(line, minted)))
          || (line.rack.Some?
              && exists o, u :: line.startU <= u <= line.endU && StandsAt(db, o, line.rack.value, u)
                                && (Moves(item, choice) ==> Some(o) != line.source)))
  }

  lemma PlaceRefusal(db: Db, d: Uuid, line: Line)
    requires Constrained(db) && line.rack.Some?
    ensures var placed := PlaceDevice(db, d, line.rack.value, line.startU, line.endU - line.startU + 1);
            placed.Err? ==>
              match placed.error
              case RackNotFound => line.rack.value in db.racks ==> db.racks[line.rack.value].deleted
              case AboveRack => line.rack.value in db.racks && db.racks[line.rack.value].uHeight < line.endU
              case ConstraintViolated =>
                || d !in db.devices || line.endU < line.startU
                || exists o, u :: line.startU <= u <= line.endU && StandsAt(db, o, line.rack.value, u) && o != d
              case _ => false
  {
    if line.startU <= line.endU {
      FreeMeans(db, d, Place(line.rack.value, line.startU, line.endU, line.endU - line.startU + 1));
    }
    hide Constrained, Overlap, StandsAt;
  }

  lemma CreateRefusal(db: Db, item: Item, choice: Option<Choice>, minted: Minted, type0: Option<Uuid>)
    requires Constrained(db) && Creates(item, choice) && CommitCreate(db, item.line, minted, type0).Err?
    ensures Refused(db, item, choice, minted, type0, CommitCreate(db, item.line, minted, type0).error)
  {
    hide PlaceDevice, Overlap;
    var line := item.line;
    if line.rack.Some? && minted.id !in db.devices {
      var height := line.endU - line.startU + 1;
      var device := Device(CodeOf(line, minted), line.name, line.serial, height, Inventory.WaitingRack, 1, false);
      var wider := db.(devices := db.devices[minted.id := device]);
      assert Constrained(wider);
      PlaceRefusal(wider, minted.id, line);
      assert forall o, u :: StandsAt(wider, o, line.rack.value, u) <==> StandsAt(db, o, line.rack.value, u);
    }
    hide Constrained, StandsAt;
  }

  /** An item that is not done is not done for a reason, and the error names it. */
  lemma RefusalIsTruthful(db: Db, item: Item, choice: Option<Choice>, minted: Minted, type0: Option<Uuid>)
    requires Constrained(db) && CommitItem(db, item, choice, minted, type0).Err?
    ensures Refused(db, item, choice, minted, type0, CommitItem(db, item, choice, minted, type0).error)
  {
    hide Constrained, PlaceDevice, StandsAt;
    if Creates(item, choice) {
      hide CommitCreate, Refused;
      CreateRefusal(db, item, choice, minted, type0);
    } else if Moves(item, choice) && item.line.source.Some? && item.line.rack.Some? {
      PlaceRefusal(db, item.line.source.value, item.line);
    }
  }

  // ----- whole imports -----

  function ChoiceOf(job: Job, n: nat): Option<Choice>
    requires n < |job.items|
  {
    if job.items[n].key in job.choices then Some(job.choices[job.items[n].key]) else None
  }

  /**
   * An import is done item by item: it comes past the next item exactly when the tables as they are then allow
   * what the item is for, and the item leaves exactly that.
   */
  lemma StepOutcome(db: Db, job: Job, n: nat)
    requires Constrained(db) && n < |job.items| == |job.minted|
    ensures After(db, job, n + 1).Ok? <==>
            && After(db, job, n).Ok?
            && Succeeds(After(db, job, n).db, job.items[n], ChoiceOf(job, n), job.minted[n], job.defaultType)
    ensures After(db, job, n + 1).Ok? ==>
              && Leaves(After(db, job, n).db, job.items[n], ChoiceOf(job, n), job.minted[n], After(db, job, n + 1).db)
              && Constrained(After(db, job, n).db)
  {
    hide CommitItem, Constrained, Succeeds, Leaves;
    if After(db, job, n).Ok? {
      LastMoveDecides(db, job, n, job.minted[n].id);
      ItemOutcome(After(db, job, n).db, job.items[n], ChoiceOf(job, n), job.minted[n], job.defaultType);
    }
  }

  /** The place lies within its rack, which is live. */
  ghost predicate Within(db: Db, p: Place) {
    && p.rack in db.racks && !db.racks[p.rack].deleted
    && p.startU <= p.endU <= db.racks[p.rack].uHeight
  }

  ghost predicate Unmoved(before: Db, after: Db, d: Uuid) {
    d in before.at && d in after.at && after.at[d] == before.at[d]
  }

  lemma ItemStaysWithin(
    db: Db, item: Item, choice: Option<Choice>, minted: Minted, type0: Option<Uuid>, db': Db, d: Uuid)
    requires Succeeds(db, item, choice, minted, type0) && Leaves(db, item, choice, minted, db')
    ensures db'.racks == db.racks
    ensures Puts(item, choice) ==>
              item.line.rack.Some? &&
              Within(db, Place(item.line.rack.value, item.line.startU, item.line.endU,
                               item.line.endU - item.line.startU + 1))
    ensures d in db'.at ==>
              || Unmoved(db, db', d)
              || (Within(db, db'.at[d]) && Puts(item, choice) && db'.at[d].startU == item.line.startU)
  {
  }

  /** Items that put a device somewhere start at U 1 or higher. */
  ghost predicate Grounded(items: seq<Item>) {
    forall item :: item in items && item.kind !in {Blocked, RemoveMissing} ==> 1 <= item.line.startU
  }

  /** Whatever an import has moved stands within a live rack, and whatever it had to put somewhere fitted its rack. */
  lemma {:induction false} ImportStaysWithin(db: Db, job: Job, n: nat, d: Uuid, m: nat)
    requires Constrained(db) && m < n <= |job.items| == |job.minted| && After(db, job, n).Ok?
    ensures After(db, job, n).db.racks == db.racks && Constrained(After(db, job, n).db)
    ensures d in After(db, job, n).db.at ==>
              || Unmoved(db, After(db, job, n).db, d)
              || (Within(db, After(db, job, n).db.at[d])
                  && (Grounded(job.items) ==> 1 <= After(db, job, n).db.at[d].startU))
    ensures Puts(job.items[m], ChoiceOf(job, m)) ==>
              var line := job.items[m].line;
              line.rack.Some? &&
              Within(db, Place(line.rack.value, line.startU, line.endU, line.endU - line.startU + 1))
  {
    hide After, Succeeds, Leaves, Constrained, Puts;
    LastMoveDecides(db, job, n, d);
    StepOutcome(db, job, n - 1);
    if n > 1 {
      ImportStaysWithin(db, job, n - 1, d, if m < n - 1 then m else 0);
    } else {
      assert After(db, job, 0) == Ok(db) by {
        NothingDone(db, job);
      }
    }
    ItemStaysWithin(After(db, job, n - 1).db, job.items[n - 1], ChoiceOf(job, n - 1), job.minted[n - 1],
                    job.defaultType, After(db, job, n).db, d);
    assert job.items[n - 1] in job.items;
    PutsGrounded(job.items[n - 1], ChoiceOf(job, n - 1));
  }

  lemma NothingDone(db: Db, job: Job)
    requires |job.items| == |job.minted|
    ensures After(db, job, 0) == Ok(db)
  {
  }

  lemma PutsGrounded(item: Item, choice: Option<Choice>)
    ensures Puts(item, choice) ==> item.kind !in {Blocked, RemoveMissing}
  {
  }

  /** A row that ends above its rack makes the whole import fail. */
  lemma AboveRackFails(db: Db, job: Job, m: nat)
    requires Constrained(db) && m < |job.items| == |job.minted| && Puts(job.items[m], ChoiceOf(job, m))
    requires var line := job.items[m].line;
             line.rack.Some? && line.rack.value in db.racks && db.racks[line.rack.value].uHeight < line.endU
    ensures After(db, job, |job.items|).Err?
  {
    hide After, Constrained, Puts;
    if After(db, job, |job.items|).Ok? {
      ImportStaysWithin(db, job, |job.items|, job.minted[m].id, m);
    }
  }

  /** In the end a device that was moved is running, one that was taken out is off the rack, others are as before. */
  lemma {:induction false} LifecycleFollows(db: Db, job: Job, n: nat, d: Uuid)
    requires Constrained(db) && n <= |job.items| == |job.minted| && After(db, job, n).Ok?
    ensures var after := After(db, job, n).db;
            match LastMove(job, n, d)
            case Some(m) =>
              d in after.devices && !after.devices[d].deleted ==>
                after.devices[d].lifecycle ==
                if job.items[m].kind == RemoveMissing then Inventory.OffRack else Inventory.Running
            case None =>
              && (d in after.devices <==> d in db.devices)
              && (d in db.devices ==>
                    && after.devices[d].lifecycle == db.devices[d].lifecycle
                    && after.devices[d].deleted == db.devices[d].deleted)
  {
    hide After, Succeeds, Leaves, Constrained;
    if n == 0 {
      NothingDone(db, job);
    } else {
      StepOutcome(db, job, n - 1);
      LifecycleFollows(db, job, n - 1, d);
      ItemLifecycle(After(db, job, n - 1).db, job.items[n - 1], ChoiceOf(job, n - 1), job.minted[n - 1],
                    job.defaultType, After(db, job, n).db, d);
    }
  }

  lemma ItemLifecycle(db: Db, item: Item, choice: Option<Choice>, minted: Minted, type0: Option<Uuid>, db': Db, d: Uuid)
    requires Succeeds(db, item, choice, minted, type0) && Leaves(db, item, choice, minted, db')
    ensures Target(item, choice, minted) == Some(d) && d in db'.devices && !db'.devices[d].deleted ==>
              db'.devices[d].lifecycle == if item.kind == RemoveMissing then Inventory.OffRack else Inventory.Running
    ensures Target(item, choice, minted) != Some(d) ==>
              && (d in db'.devices <==> d in db.devices)
              && (d in db.devices ==>
                    && db'.devices[d].lifecycle == db.devices[d].lifecycle
                    && db'.devices[d].deleted == db.devices[d].deleted)
  {
  }

  /** What a commit that succeeds has made sure of. */
  ghost predicate StayedWithin(before: Db, after: Db, items: seq<Item>, choices: map<Key, Choice>) {
    && after.racks == before.racks
    && (forall d :: d in after.at ==> Unmoved(before, after, d) || Within(after, after.at[d]))
    && (Grounded(items) ==> forall d :: d in after.at ==> Unmoved(before, after, d) || 1 <= after.at[d].startU)
    && forall item :: item in items && Puts(item, if item.key in choices then Some(choices[item.key]) else None) ==>
         && item.line.rack.Some? && item.line.rack.value in before.racks
         && item.line.endU <= before.racks[item.line.rack.value].uHeight
  }

  lemma ImportStays(db: Db, job: Job)
    requires Constrained(db) && |job.items| == |job.minted| && After(db, job, |job.items|).Ok?
    ensures Constrained(After(db, job, |job.items|).db)
    ensures StayedWithin(db, After(db, job, |job.items|).db, job.items, job.choices)
  {
    hide After, Constrained, Puts, Grounded;
    if job.items == [] {
      NothingDone(db, job);
    } else {
      ImportStaysWithin(db, job, |job.items|, job.minted[0].id, 0);
      forall d | d in After(db, job, |job.items|).db.at
        ensures || Unmoved(db, After(db, job, |job.items|).db, d)
                || (Within(db, After(db, job, |job.items|).db.at[d])
                    && (Grounded(job.items) ==> 1 <= After(db, job, |job.items|).db.at[d].startU))
      {
        ImportStaysWithin(db, job, |job.items|, d, 0);
      }
      forall m | 0 <= m < |job.items| && Puts(job.items[m], ChoiceOf(job, m))
        ensures var line := job.items[m].line;
                line.rack.Some? && Within(db, Place(line.rack.value, line.startU, line.endU,
                                                    line.endU - line.startU + 1))
      {
        ImportStaysWithin(db, job, |job.items|, job.minted[0].id, m);
      }
    }
  }

  // ----- what a plan makes of a row -----

  /** The device that a row stands for. */
  ghost predicate StandsFor(db: Db, covered: seq<Uuid>, line: Line, src: Option<Uuid>) {
    var named := line.source.Some? && line.source.value in db.devices && !db.devices[line.source.value].deleted;
    && (named ==> src == line.source)
    && (!named && src.Some? ==>
          && line.sourceCode != "" && src.value in db.at && db.at[src.value].rack in covered
          && src.value in db.devices && !db.devices[src.value].deleted
          && db.devices[src.value].code == line.sourceCode)
    && (src.None? && line.sourceCode != "" ==>
          forall d :: d in db.at && db.at[d].rack in covered && d in db.devices && !db.devices[d].deleted ==>
                        db.devices[d].code != line.sourceCode)
  }

  ghost predicate Readable(covered: seq<Uuid>, line: Line) {
    && (exists i :: 0 <= i < |line.name| && line.name[i] !in WHITESPACE)
    && line.rack.Some? && line.rack.value in covered && 1 <= line.startU <= line.endU
  }

  /** The kind of a row: blocked, new, elsewhere, in its place but described otherwise, or as it is. */
  ghost predicate Classified(db: Db, covered: seq<Uuid>, line: Line, src: Option<Uuid>, kind: Kind) {
    if !Readable(covered, line) then kind == Blocked && src == None
    else
      && StandsFor(db, covered, line, src)
      && (kind == CreateNew <==> src == None)
      && (src.Some? ==>
            && src.value in db.devices
            && var dev := db.devices[src.value];
               var there := src.value in db.at && Some(db.at[src.value].rack) == line.rack
                            && db.at[src.value].startU == line.startU && db.at[src.value].endU == line.endU;
               && (kind == MoveExisting <==> !there)
               && (kind == Unchanged <==> there && dev.name == line.name && line.serial in {"", dev.serial})
               && (kind == UpdateExisting <==> there && !(dev.name == line.name && line.serial in {"", dev.serial})))
  }

  lemma ValidIsReadable(covered: seq<Uuid>, line: Line)
    ensures Valid(covered, line) <==> Readable(covered, line)
    ensures Valid(covered, line) ==> 1 <= line.startU
  {
    if c :| c in line.name && c !in WHITESPACE {
      var i :| 0 <= i < |line.name| && line.name[i] == c;
    }
  }

  lemma ResolvedStandsFor(db: Db, covered: seq<Uuid>, line: Line, src: Option<Uuid>)
    requires Resolves(db, covered, line, src)
    ensures StandsFor(db, covered, line, src) && (src.Some? ==> Live(db, src.value))
  {
    assert forall d :: (&& d in db.at && db.at[d].rack in covered && d in db.devices && !db.devices[d].deleted
                        && db.devices[d].code == line.sourceCode) ==> HasCode(db, covered, d, line.sourceCode);
  }

  lemma PlannedIsClassified(db: Db, covered: seq<Uuid>, line: Line, n: nat, src: Option<Uuid>, item: Item)
    requires PlannedLine(db, covered, line, n, src, item)
    ensures Classified(db, covered, line, src, item.kind)
    ensures item.line == line && item.key == LineKey(n) && !item.requiresDecision
    ensures item.kind != Blocked ==> 1 <= line.startU
  {
    hide Valid, Readable, Resolves, StandsFor;
    ValidIsReadable(covered, line);
    if Valid(covered, line) {
      ResolvedStandsFor(db, covered, line, src);
    }
  }

  /** Updating by an unchanged row would move the version on and nothing else. */
  lemma UnchangedNeedsNothing(db: Db, covered: seq<Uuid>, line: Line, d: Uuid, key: Key, unused: Minted, db': Db)
    requires Classified(db, covered, line, Some(d), Unchanged) && line.source == Some(d)
    requires Leaves(db, Item(key, UpdateExisting, line, false), None, unused, db')
    ensures d in db.devices && d in db'.devices && db'.at == db.at
    ensures db'.devices[d] == db.devices[d].(version := db.devices[d].version + 1)
  {
  }

  lemma PlanIsGrounded(db: Db, covered: seq<Uuid>, lines: seq<Line>, sources: seq<Option<Uuid>>, items: seq<Item>)
    requires Planned(db, covered, lines, sources, items)
    ensures Grounded(items)
    ensures forall n :: 0 <= n < |lines| ==>
              items[n].line == lines[n] && Classified(db, covered, lines[n], sources[n], items[n].kind)
  {
    hide PlannedLine, Classified;
    forall n | 0 <= n < |lines|
      ensures items[n].line == lines[n] && Classified(db, covered, lines[n], sources[n], items[n].kind)
      ensures items[n].kind != Blocked ==> 1 <= items[n].line.startU
    {
      PlannedIsClassified(db, covered, lines[n], n, sources[n], items[n]);
    }
    forall item | item in items && item.kind !in {Blocked, RemoveMissing}
      ensures 1 <= item.line.startU
    {
      var n :| 0 <= n < |items| && items[n] == item;
      if n >= |lines| {
        assert false;
      }
    }
  }

  // ----- the counters -----

  datatype Deed = Creation | Change | Move | Removal

  predicate Does(item: Item, choice: Option<Choice>, deed: Deed) {
    match deed
    case Creation => Creates(item, choice)
    case Change => Updates(item, choice)
    case Move => Moves(item, choice)
    case Removal => TakesOut(item, choice)
  }

  /** The first `n` items that do the deed. */
  ghost function Doers(items: seq<Item>, choices: map<Key, Choice>, n: nat, deed: Deed): set<nat>
    requires n <= |items|
  {
    set m: nat | m < n && Does(items[m], ChoiceFor(choices, items[m].key), deed)
  }

  lemma DoersGrow(items: seq<Item>, choices: map<Key, Choice>, n: nat, deed: Deed)
    requires 0 < n <= |items|
    ensures |Doers(items, choices, n, deed)| ==
            |Doers(items, choices, n - 1, deed)| +
            if Does(items[n - 1], ChoiceFor(choices, items[n - 1].key), deed) then 1 else 0
  {
    hide Does, ChoiceFor;
    var before, after := Doers(items, choices, n - 1, deed), Doers(items, choices, n, deed);
    if Does(items[n - 1], ChoiceFor(choices, items[n - 1].key), deed) {
      assert after == before + {n - 1};
    } else {
      assert after == before;
    }
  }

  function Reported(tally: Tally, deed: Deed): nat {
    match deed
    case Creation => tally.created
    case Change => tally.updated
    case Move => tally.moved
    case Removal => tally.decommissioned
  }

  /** What a commit reports is how many items created, changed, moved or took out a device. */
  lemma {:induction false} TallyCounts(items: seq<Item>, choices: map<Key, Choice>, n: nat, deed: Deed)
    requires n <= |items|
    ensures Reported(CountFirst(items, n, choices), deed) == |Doers(items, choices, n, deed)|
  {
    if n == 0 {
      assert Doers(items, choices, 0, deed) == {};
    } else {
      TallyCounts(items, choices, n - 1, deed);
      DoersGrow(items, choices, n, deed);
      hide Doers;
    }
  }
}
