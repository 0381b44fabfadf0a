/** What a run that finishes has done about every item it listed. */
module Outcomes {
  import opened Wrappers
  import opened FolderMapping
  import opened ImportModel
  import opened Runner
  import opened Histories

  // ---- outcomes -------------------------------------------------------------

  /** The item has failed, or it is done, an event or contact with a stored stamp at least this one. */
  predicate HasOutcome(db: Mailbox, key: Key, stamp: int) {
    key in db.items &&
    (db.items[key].status == DONE && key.category != Mail ==>
       db.items[key].sourceModifiedAt.Some? && db.items[key].sourceModifiedAt.value >= stamp)
  }

  /** Done events and contacts carry a stamp. */
  ghost predicate Stamped(db: Mailbox) {
    forall key :: key in db.items && db.items[key].status == DONE && key.category != Mail
      ==> db.items[key].sourceModifiedAt.Some?
  }

  /** Every listed version of an event or contact is at least this one. */
  ghost predicate AtLeast(units: seq<Unit>, key: Key, stamp: int) {
    forall u :: u in units && u.ItemUnit? && u.item.ItemKey() == key && !u.item.Message? ==> u.item.stamp >= stamp
  }

  predicate IsListed(units: seq<Unit>, key: Key) {
    exists u :: u in units && u.ItemUnit? && u.item.ItemKey() == key
  }

  // ---- rows along a log -----------------------------------------------------

  /** An event that makes an item done does so with a stamp, and for this item with one at least this. */
  predicate Keeps(e: Event, key: Key, stamp: int) {
    e.RowDone? && e.key.category != Mail ==> e.rowStamp.Some? && (e.key == key ==> e.rowStamp.value >= stamp)
  }

  lemma {:induction false} OutcomeStays(db: Mailbox, events: seq<Event>, key: Key, stamp: int)
    requires HasOutcome(db, key, stamp) && forall e :: e in events ==> Keeps(e, key, stamp)
    ensures HasOutcome(Replay(db, events), key, stamp)
  {
    if |events| > 0 {
      assert Keeps(events[|events| - 1], key, stamp);
      OutcomeStays(db, events[..|events| - 1], key, stamp);
    }
  }

  lemma {:induction false} StampedStays(db: Mailbox, events: seq<Event>)
    requires Stamped(db) && forall e :: e in events && e.RowDone? && e.key.category != Mail ==> e.rowStamp.Some?
    ensures Stamped(Replay(db, events))
  {
    if |events| > 0 {
      assert events[|events| - 1] in events;
      StampedStays(db, events[..|events| - 1]);
    }
  }

  lemma {:induction false} WatermarkStays(db: Mailbox, events: seq<Event>)
    requires forall e :: e in events ==> !e.WatermarkSet?
    ensures Replay(db, events).watermark == db.watermark
  {
    if |events| > 0 {
      assert events[|events| - 1] in events;
      WatermarkStays(db, events[..|events| - 1]);
    }
  }

  // ---- one item -------------------------------------------------------------

  lemma CounterKeepsRows(db: Mailbox, key: Key, counter: Counter, commits: Commits)
    ensures Replay(db, CounterBlock(key, counter, commits).events).items == db.items
  {
  }

  /** A real import that does not raise leaves the item an outcome for the version it had. */
  lemma ImportHasOutcome(db: Mailbox, item: Item, script: Script, stamp: int)
    requires Stamped(db) && !ItemBlock(db, false, item, script).raised
    requires !item.Message? ==> item.stamp >= stamp
    ensures HasOutcome(Replay(db, ItemBlock(db, false, item, script).events), item.ItemKey(), stamp)
  {
    hide Tries, CounterBlock, Replay;
    var key := item.ItemKey();
    var success := item.SuccessCounter(Row(db, key).Some?);
    if !NeedsImport(Row(db, key), item.Stamp()) {
      CounterKeepsRows(db, key, Skipped, script.commits);
    } else {
      var done := RowDone(key, item.Stamp());
      var tried := Tries(script.attempts, item.Effect(), done).events;
      TriesEvents(script.attempts, item.Effect(), done);
      if !Tries(script.attempts, item.Effect(), done).raised {
        LastEvent(db, tried);
        ReplayConcat(db, tried, CounterBlock(key, success, script.commits).events);
        CounterKeepsRows(Replay(db, tried), key, success, script.commits);
      } else {
        ReplayOne(db, tried, RowFailed(key));
        ReplayConcat(db, tried + [RowFailed(key)], CounterBlock(key, Failures, script.commits).events);
        CounterKeepsRows(Replay(db, tried + [RowFailed(key)]), key, Failures, script.commits);
      }
    }
  }

  lemma LastEvent(db: Mailbox, events: seq<Event>)
    requires |events| > 0
    ensures Replay(db, events) == Apply(Replay(db, events[..|events| - 1]), events[|events| - 1])
  {
  }

  // ---- the units of a run ---------------------------------------------------

  /** A unit makes no row done but its own item's, with the version that was listed. */
  lemma UnitRows(db: Mailbox, dryRun: bool, unit: Unit)
    ensures forall e :: e in UnitBlock(db, dryRun, unit).events ==> !e.WatermarkSet?
    ensures forall e :: e in UnitBlock(db, dryRun, unit).events && e.RowDone?
              ==> unit.ItemUnit? && e == RowDone(unit.item.ItemKey(), unit.item.Stamp())
  {
    hide Tries;
    if unit.ItemUnit? {
      TriesEvents(unit.script.attempts, unit.item.Effect(), RowDone(unit.item.ItemKey(), unit.item.Stamp()));
    }
  }

  lemma UnitKeeps(db: Mailbox, dryRun: bool, unit: Unit, key: Key, stamp: int)
    requires AtLeast([unit], key, stamp)
    ensures forall e :: e in UnitBlock(db, dryRun, unit).events ==> !e.WatermarkSet? && Keeps(e, key, stamp)
  {
    hide UnitBlock;
    UnitRows(db, dryRun, unit);
    assert unit in [unit];
  }

  lemma {:induction false} RunKeeps(db: Mailbox, dryRun: bool, units: seq<Unit>, clock: nat, cancelAt: Option<nat>,
                                    key: Key, stamp: int)
    requires AtLeast(units, key, stamp)
    ensures forall e :: e in RunUnits(db, dryRun, units, clock, cancelAt).events ==>
              !e.WatermarkSet? && Keeps(e, key, stamp)
    decreases |units|
  {
    hide UnitBlock, Replay;
    if |units| > 0 && !units[0].Fault? && !CancelledBy(cancelAt, clock) {
      var events := [Checked(false)] + UnitBlock(db, dryRun, units[0]).events;
      UnitKeeps(db, dryRun, units[0], key, stamp);
      RunKeeps(Replay(db, events), dryRun, units[1..], clock + |events|, cancelAt, key, stamp);
    }
  }

  /** A real run that finishes leaves every listed item an outcome for the versions it listed. */
  lemma {:induction false} FinishedHasOutcome(db: Mailbox, units: seq<Unit>, clock: nat, cancelAt: Option<nat>,
                                              key: Key, stamp: int)
    requires Stamped(db) && RunUnits(db, false, units, clock, cancelAt).exit == Finished
    requires AtLeast(units, key, stamp) && IsListed(units, key)
    ensures HasOutcome(Replay(db, RunUnits(db, false, units, clock, cancelAt).events), key, stamp)
    decreases |units|
  {
    hide UnitBlock, Replay, HasOutcome, Stamped, Keeps;
    var unit, rest := units[0], units[1..];
    var block := UnitBlock(db, false, unit).events;
    var events := [Checked(false)] + block;
    var next, later := Replay(db, events), clock + |events|;
    var more := RunUnits(next, false, rest, later, cancelAt).events;
    ReplayConcat(db, events, more);
    assert AtLeast(rest, key, stamp);
    if unit.ItemUnit? && unit.item.ItemKey() == key {
      ItemOutcome(db, unit, key, stamp);
      RunKeeps(next, false, rest, later, cancelAt, key, stamp);
      OutcomeStays(next, more, key, stamp);
    } else {
      UnitStamped(db, false, unit);
      FinishedHasOutcome(next, rest, later, cancelAt, key, stamp);
    }
  }

  lemma ItemOutcome(db: Mailbox, unit: Unit, key: Key, stamp: int)
    requires Stamped(db) && unit.ItemUnit? && unit.item.ItemKey() == key
             && (!unit.item.Message? ==> unit.item.stamp >= stamp)
    requires !UnitBlock(db, false, unit).raised
    ensures HasOutcome(Replay(db, [Checked(false)] + UnitBlock(db, false, unit).events), key, stamp)
  {
    hide ItemBlock, Replay, HasOutcome, Stamped;
    ReplayQuiet(db);
    ReplayConcat(db, [Checked(false)], UnitBlock(db, false, unit).events);
    ImportHasOutcome(db, unit.item, unit.script, stamp);
  }

  lemma UnitStamped(db: Mailbox, dryRun: bool, unit: Unit)
    requires Stamped(db)
    ensures Stamped(Replay(db, [Checked(false)] + UnitBlock(db, dryRun, unit).events))
  {
    hide UnitBlock, Replay, Stamped;
    UnitRows(db, dryRun, unit);
    StampedStays(db, [Checked(false)] + UnitBlock(db, dryRun, unit).events);
  }

  lemma {:induction false} FinishedHasNoFault(db: Mailbox, dryRun: bool, units: seq<Unit>, clock: nat,
                                              cancelAt: Option<nat>)
    requires RunUnits(db, dryRun, units, clock, cancelAt).exit == Finished
    ensures Fault !in units
    decreases |units|
  {
    hide UnitBlock, Replay;
    if |units| > 0 {
      var events := [Checked(false)] + UnitBlock(db, dryRun, units[0]).events;
      FinishedHasNoFault(Replay(db, events), dryRun, units[1..], clock + |events|, cancelAt);
      assert units == [units[0]] + units[1..];
    }
  }

  // ---- a job ----------------------------------------------------------------

  ghost function UnitsOf(db: Mailbox, run: JobRun): seq<Unit>
    requires WellFormed(run.world)
  {
    JobUnits(db, run.options, run.world, run.mailSinceDate)
  }

  ghost function TraceOf(db: Mailbox, run: JobRun): Trace
    requires WellFormed(run.world)
  {
    JobTrace(db, [], run.options, run.world, run.mailSinceDate, run.cancelAt)
  }

  /** When the passes of a real job have finished, every item they listed has its outcome. */
  lemma FinishedJobHasOutcome(db: Mailbox, run: JobRun, key: Key, stamp: int)
    requires WellFormed(run.world) && !run.options.dryRun && Stamped(db) && TraceOf(db, run).exit == Finished
    requires AtLeast(UnitsOf(db, run), key, stamp) && IsListed(UnitsOf(db, run), key)
    ensures HasOutcome(Replay(db, TraceOf(db, run).events), key, stamp)
  {
    hide JobTrace, JobUnits, RunUnits, Replay, HasOutcome, Stamped, AtLeast, IsListed;
    JobAsOneRun(db, run.options, run.world, run.mailSinceDate, run.cancelAt);
    FinishedHasOutcome(db, UnitsOf(db, run), 0, run.cancelAt, key, stamp);
  }

  /** The log of a run, cut off or not, keeps outcomes for versions no newer than those it listed. */
  lemma LogKeeps(db: Mailbox, run: JobRun, key: Key, stamp: int)
    requires WellFormed(run.world) && AtLeast(UnitsOf(db, run), key, stamp)
    ensures forall e :: e in RunEvents(db, run) ==> Keeps(e, key, stamp)
    ensures forall e :: e in TraceOf(db, run).events ==> !e.WatermarkSet?
  {
    hide JobTrace, JobUnits, RunUnits, AtLeast, Keeps;
    JobAsOneRun(db, run.options, run.world, run.mailSinceDate, run.cancelAt);
    RunKeeps(db, run.options.dryRun, UnitsOf(db, run), 0, run.cancelAt, key, stamp);
    TailKeeps(run.startedAt, key, stamp);
    assert forall e :: e in RunEvents(db, run) ==>
        e in TraceOf(db, run).events || e == WatermarkSet(run.startedAt) || e == RunEnded;
  }

  lemma TailKeeps(at: int, key: Key, stamp: int)
    ensures Keeps(WatermarkSet(at), key, stamp) && Keeps(RunEnded, key, stamp)
  {
  }

  lemma {:induction false} StampedRun(db: Mailbox, dryRun: bool, units: seq<Unit>, clock: nat, cancelAt: Option<nat>)
    ensures forall e :: e in RunUnits(db, dryRun, units, clock, cancelAt).events ==>
              !e.WatermarkSet? && (e.RowDone? && e.key.category != Mail ==> e.rowStamp.Some?)
    decreases |units|
  {
    hide UnitBlock, Replay;
    if |units| > 0 && !units[0].Fault? && !CancelledBy(cancelAt, clock) {
      var events := [Checked(false)] + UnitBlock(db, dryRun, units[0]).events;
      UnitRows(db, dryRun, units[0]);
      StampedRun(Replay(db, events), dryRun, units[1..], clock + |events|, cancelAt);
    }
  }

  /** The watermark was moved, and no crash came before. */
  ghost predicate Advanced(db: Mailbox, run: JobRun)
    requires WellFormed(run.world)
  {
    WatermarkSet(run.startedAt) in RunEvents(db, run)
  }

  /** Only a real run whose passes finished moves the watermark, after all they did; done rows stay stamped. */
  lemma AfterRun(db: Mailbox, run: JobRun)
    requires WellFormed(run.world)
    ensures var end := Replay(db, RunEvents(db, run));
            && end.watermark == (if Advanced(db, run) then Some(run.startedAt) else db.watermark)
            && (Stamped(db) ==> Stamped(end))
    ensures Advanced(db, run) ==>
              && !run.options.dryRun && TraceOf(db, run).exit == Finished
              && Replay(db, RunEvents(db, run)).items == Replay(db, TraceOf(db, run).events).items
  {
    hide JobTrace, JobUnits, RunUnits, Replay, Stamped;
    var events, whole := TraceOf(db, run).events, WholeLog(db, run);
    var cut := Cut(whole, run.cut);
    JobAsOneRun(db, run.options, run.world, run.mailSinceDate, run.cancelAt);
    StampedRun(db, run.options.dryRun, UnitsOf(db, run), 0, run.cancelAt);
    ReplayOne(db, cut, RunEnded);
    ReplayOne(db, events, WatermarkSet(run.startedAt));
    assert forall e :: e in cut ==> e in events || e == WatermarkSet(run.startedAt);
    if Stamped(db) {
      StampedStays(db, cut);
    }
    if WatermarkSet(run.startedAt) in cut {
      WatermarkLast(events, WatermarkSet(run.startedAt), whole, run.cut);
    } else {
      WatermarkStays(db, cut);
    }
  }

  lemma WatermarkLast(events: seq<Event>, last: Event, whole: seq<Event>, cut: nat)
    requires whole in {[], events, events + [last]} && last in Cut(whole, cut) && last !in events
    ensures whole == events + [last] && Cut(whole, cut) == whole
  {
  }
}
