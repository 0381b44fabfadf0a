/** What a dry run leaves alone, and what it predicts. */
module DryRuns {
  import opened Wrappers
  import opened ImportModel
  import opened Runner
  import opened Histories
  import opened Counting

  // ---- a dry run only reports -----------------------------------------------

  /** Everything but the counters and the folder rows of mailboxes that do not exist yet. */
  ghost predicate OnlyReported(s: Mailbox, end: Mailbox) {
    end.items == s.items && end.messages == s.messages && end.objects == s.objects
    && end.imapFolders == s.imapFolders && end.watermark == s.watermark
    && (forall id :: id in s.folders ==> id in end.folders && end.folders[id] == s.folders[id])
    && (forall id :: id in end.folders && id !in s.folders ==> !end.folders[id].created)
  }

  lemma DryBlock(s: Mailbox, unit: Unit)
    ensures var events := UnitBlock(s, true, unit).events;
            events == [] || (|events| == 1 && OnlyReported(s, Apply(s, events[0])))
  {
  }

  lemma DryUnit(s: Mailbox, unit: Unit, cut: nat)
    ensures OnlyReported(s, Replay(s, Cut([Checked(false)] + UnitBlock(s, true, unit).events, cut)))
  {
    hide UnitBlock, Replay, Apply;
    var block := UnitBlock(s, true, unit).events;
    ReplayQuiet(s);
    DryBlock(s, unit);
    if |block| == 1 {
      ReplayOne(s, [Checked(false)], block[0]);
      assert block == [block[0]];
    }
    var events := [Checked(false)] + block;
    assert events[..0] == [] && events[..1] == [Checked(false)];
    assert |block| == 0 ==> events == [Checked(false)];
    assert Cut(events, cut) == if cut == 0 then [] else if cut == 1 then [Checked(false)] else events;
  }

  lemma {:induction false} DryUnits(s: Mailbox, units: seq<Unit>, clock: nat, cancelAt: Option<nat>, cut: nat)
    ensures OnlyReported(s, Replay(s, Cut(RunUnits(s, true, units, clock, cancelAt).events, cut)))
    decreases |units|
  {
    hide UnitBlock, Replay, Cut, OnlyReported;
    CutQuiet(s, cut);
    NothingReported(s);
    if |units| > 0 && !units[0].Fault? && !CancelledBy(cancelAt, clock) {
      var block := UnitBlock(s, true, units[0]);
      var events := [Checked(false)] + block.events;
      var next, later := Replay(s, events), clock + |events|;
      var rest := if block.raised then [] else RunUnits(next, true, units[1..], later, cancelAt).events;
      assert events + [] == events;
      CutConcat(events, rest, cut);
      DryPart(s, units[0], events, cut);
      if |events| <= cut {
        CutQuiet(next, cut - |events|);
        NothingReported(next);
        if !block.raised {
          DryUnits(next, units[1..], later, cancelAt, cut - |events|);
        }
        ReplayConcat(s, events, Cut(rest, cut - |events|));
        ReportedTwice(s, next, Replay(next, Cut(rest, cut - |events|)));
      }
    }
  }

  lemma DryPart(s: Mailbox, unit: Unit, events: seq<Event>, cut: nat)
    requires events == [Checked(false)] + UnitBlock(s, true, unit).events
    ensures OnlyReported(s, Replay(s, events)) && (cut < |events| ==> OnlyReported(s, Replay(s, events[..cut])))
  {
    hide UnitBlock, Replay, OnlyReported;
    DryUnit(s, unit, cut);
    DryUnit(s, unit, |events|);
  }

  lemma NothingReported(s: Mailbox)
    ensures OnlyReported(s, s)
  {
  }

  lemma ReportedTwice(s: Mailbox, next: Mailbox, end: Mailbox)
    requires OnlyReported(s, next) && OnlyReported(next, end)
    ensures OnlyReported(s, end)
  {
  }

  lemma CutQuiet(s: Mailbox, cut: nat)
    ensures Replay(s, Cut([], cut)) == s && Replay(s, Cut([Checked(true)], cut)) == s
  {
    ReplayQuiet(s);
    assert [Checked(true)][..0] == [];
  }

  /** A dry run, wherever it is cut off, changes no item row, no target, no mark and no watermark. */
  lemma DryRunOnlyReports(s: Mailbox, run: JobRun)
    requires WellFormed(run.world) && run.options.dryRun
    ensures OnlyReported(s, Replay(s, RunEvents(s, run)))
  {
    hide JobTrace, JobUnits, RunUnits, Replay, Cut;
    ReplayOne(s, Cut(WholeLog(s, run), run.cut), RunEnded);
    CutQuiet(s, run.cut);
    if run.world.calls.started && run.world.calls.refreshed {
      var events := JobTrace(s, [], run.options, run.world, run.mailSinceDate, run.cancelAt).events;
      JobAsOneRun(s, run.options, run.world, run.mailSinceDate, run.cancelAt);
      DryUnits(s, JobUnits(s, run.options, run.world, run.mailSinceDate), 0, run.cancelAt, run.cut);
      assert events + [] == events;
    }
  }

  /** Nor does any history of dry runs. */
  lemma {:induction false} DryHistoryOnlyReports(s: Mailbox, runs: seq<JobRun>)
    requires WellFormedRuns(runs) && forall run :: run in runs ==> run.options.dryRun
    ensures OnlyReported(s, Replay(s, History(s, runs)))
    decreases |runs|
  {
    hide RunEvents, Replay;
    if |runs| == 0 {
      ReplayQuiet(s);
    } else {
      var events := RunEvents(s, runs[0]);
      DryRunOnlyReports(s, runs[0]);
      DryHistoryOnlyReports(Replay(s, events), runs[1..]);
      ReplayConcat(s, events, History(Replay(s, events), runs[1..]));
    }
  }

  // ---- units that meet no failure -------------------------------------------

  /** No call raises and no write fails. */
  predicate Smooth(unit: Unit) {
    match unit
    case FolderUnit(_, _, _, script) => script.inserted && script.ensured == Succeeds
    case ItemUnit(_, script) => script.attempts[0] == Succeeds && script.commits[0]
    case Fault => false
  }

  function CounterOf(s: Mailbox, item: Item): Counter {
    var row := Row(s, item.ItemKey());
    if NeedsImport(row, item.Stamp()) then item.SuccessCounter(row.Some?) else Skipped
  }

  /** What a unit that meets no failure counts, and which row it may change. */
  lemma SmoothUnit(s: Mailbox, dryRun: bool, unit: Unit)
    requires Smooth(unit)
    ensures var events := [Checked(false)] + UnitBlock(s, dryRun, unit).events;
            && !UnitBlock(s, dryRun, unit).raised
            && Counts(events) == (if unit.ItemUnit? then [Counted(unit.item.ItemKey(), CounterOf(s, unit.item))]
                                  else [])
            && (forall key :: (unit.ItemUnit? ==> key != unit.item.ItemKey()) ==>
                  Row(Replay(s, events), key) == Row(s, key))
  {
    hide Counts;
    var block := UnitBlock(s, dryRun, unit).events;
    ReplayConcat(s, [Checked(false)], block);
    ReplayQuiet(s);
    CountsConcat([Checked(false)], block);
    UncountedTail(Checked(false));
    assert Counts([Checked(false)]) == [];
    if unit.ItemUnit? {
      SmoothItem(s, dryRun, unit.item, unit.script);
    } else {
      SmoothFolder(s, dryRun, unit);
    }
  }

  lemma SmoothFolder(s: Mailbox, dryRun: bool, unit: Unit)
    requires Smooth(unit) && unit.FolderUnit?
    ensures var block := UnitBlock(s, dryRun, unit);
            !block.raised && Counts(block.events) == [] && Replay(s, block.events).items == s.items
  {
    FolderKeepsItems(s, UnitBlock(s, dryRun, unit).events);
  }

  lemma {:induction false} FolderKeepsItems(s: Mailbox, events: seq<Event>)
    requires forall e :: e in events ==> e.FolderInserted? || e.FolderEnsured? || e.FolderMarked?
    ensures Counts(events) == [] && Replay(s, events).items == s.items
  {
    if |events| > 0 {
      assert events[|events| - 1] in events;
      FolderKeepsItems(s, events[..|events| - 1]);
    }
  }

  /** The events of an item that meets no failure: only counted, or imported with its row and count. */
  function SmoothEvents(s: Mailbox, dryRun: bool, item: Item): seq<Event> {
    var key := item.ItemKey();
    var count := Counted(key, CounterOf(s, item));
    if dryRun || !NeedsImport(Row(s, key), item.Stamp()) then [count]
    else [item.Effect(), RowDone(key, item.Stamp()), count]
  }

  lemma SmoothBlock(s: Mailbox, dryRun: bool, item: Item, script: Script)
    requires script.attempts[0] == Succeeds && script.commits[0]
    ensures ItemBlock(s, dryRun, item, script) == Block(SmoothEvents(s, dryRun, item), false)
  {
    var effect, done := item.Effect(), RowDone(item.ItemKey(), item.Stamp());
    assert Tries(script.attempts, effect, done) == Block([effect, done], false);
    var count := Counted(item.ItemKey(), CounterOf(s, item));
    assert [effect, done] + [count] == [effect, done, count];
  }

  /** Its effect on the rows, the target and the counters. */
  function AfterItem(s: Mailbox, dryRun: bool, item: Item): Mailbox {
    var key := item.ItemKey();
    var count := Counted(key, CounterOf(s, item));
    if dryRun || !NeedsImport(Row(s, key), item.Stamp()) then Apply(s, count)
    else Apply(Apply(Apply(s, item.Effect()), RowDone(key, item.Stamp())), count)
  }

  lemma SmoothReplay(s: Mailbox, dryRun: bool, item: Item)
    ensures Replay(s, SmoothEvents(s, dryRun, item)) == AfterItem(s, dryRun, item)
  {
    hide Apply;
    var count := Counted(item.ItemKey(), CounterOf(s, item));
    ReplayOne(s, [], count);
    assert [] + [count] == [count];
    ReplayThree(s, item.Effect(), RowDone(item.ItemKey(), item.Stamp()), count);
  }

  lemma SmoothCounts(s: Mailbox, dryRun: bool, item: Item)
    ensures Counts(SmoothEvents(s, dryRun, item)) == [Counted(item.ItemKey(), CounterOf(s, item))]
  {
    var key := item.ItemKey();
    var count := Counted(key, CounterOf(s, item));
    var a, b := item.Effect(), RowDone(key, item.Stamp());
    assert [count][..0] == [] && [a][..0] == [];
    assert [a, b][..1] == [a] && [a, b, count][..2] == [a, b];
    assert Counts([]) == [] && Counts([a]) == [] && Counts([a, b]) == [];
  }

  lemma SmoothItem(s: Mailbox, dryRun: bool, item: Item, script: Script)
    requires script.attempts[0] == Succeeds && script.commits[0]
    ensures var key, block := item.ItemKey(), ItemBlock(s, dryRun, item, script);
            && !block.raised
            && Counts(block.events) == [Counted(key, CounterOf(s, item))]
            && (forall other :: other != key ==> Row(Replay(s, block.events), other) == Row(s, other))
  {
    hide ItemBlock, Replay, Counts;
    SmoothBlock(s, dryRun, item, script);
    SmoothReplay(s, dryRun, item);
    SmoothCounts(s, dryRun, item);
  }

  lemma SmoothIsNoFault(unit: Unit)
    requires Smooth(unit)
    ensures !unit.Fault?
  {
  }

  // ---- a dry run predicts the real run --------------------------------------

  ghost predicate DistinctItems(units: seq<Unit>) {
    forall i, j :: 0 <= i < j < |units| && units[i].ItemUnit? && units[j].ItemUnit?
      ==> units[i].item.ItemKey() != units[j].item.ItemKey()
  }

  ghost predicate SameRows(a: Mailbox, b: Mailbox, units: seq<Unit>) {
    forall u :: u in units && u.ItemUnit? ==> Row(a, u.item.ItemKey()) == Row(b, u.item.ItemKey())
  }

  /** Unit by unit both runs make the same counts, in the same order. */
  lemma {:induction false} SameCounts(dry: Mailbox, live: Mailbox, units: seq<Unit>, clock: nat, other: nat)
    requires DistinctItems(units) && SameRows(dry, live, units)
    requires forall u :: u in units ==> Smooth(u)
    ensures var d, r := RunUnits(dry, true, units, clock, None), RunUnits(live, false, units, other, None);
            d.exit == Finished && r.exit == Finished && Counts(d.events) == Counts(r.events)
    decreases |units|
  {
    hide UnitBlock, Replay, Smooth, Counts;
    if |units| > 0 {
      var unit, rest := units[0], units[1..];
      assert Smooth(unit) && !unit.Fault? by { SmoothIsNoFault(unit); }
      SmoothUnit(dry, true, unit);
      SmoothUnit(live, false, unit);
      var d := [Checked(false)] + UnitBlock(dry, true, unit).events;
      var r := [Checked(false)] + UnitBlock(live, false, unit).events;
      forall u | u in rest && u.ItemUnit?
        ensures Row(Replay(dry, d), u.item.ItemKey()) == Row(Replay(live, r), u.item.ItemKey())
      {
        var j :| 0 <= j < |rest| && rest[j] == u;
        assert units[j + 1] == u;
      }
      SameCounts(Replay(dry, d), Replay(live, r), rest, clock + |d|, other + |r|);
      CountsConcat(d, RunUnits(Replay(dry, d), true, rest, clock + |d|, None).events);
      CountsConcat(r, RunUnits(Replay(live, r), false, rest, other + |r|, None).events);
    }
  }

  /** The counters are what the counts make of them. */
  function AddAll(counters: Counters, counts: seq<Event>): Counters {
    if |counts| == 0 then counters
    else
      var before, last := AddAll(counters, counts[..|counts| - 1]), counts[|counts| - 1];
      if last.Counted? then before.Increment(last.counter) else before
  }

  lemma {:induction false} CountersAreCounts(s: Mailbox, log: seq<Event>)
    ensures Replay(s, log).counters == AddAll(s.counters, Counts(log))
  {
    hide Apply, Counters.Increment;
    if |log| > 0 {
      var init, last := log[..|log| - 1], log[|log| - 1];
      CountersAreCounts(s, init);
      AppliedCounters(Replay(s, init), last);
      AddOne(s.counters, Counts(init), last);
      assert Counts(init) + [] == Counts(init);
    }
  }

  lemma AppliedCounters(s: Mailbox, e: Event)
    ensures Apply(s, e).counters == if e.Counted? then s.counters.Increment(e.counter) else s.counters
  {
  }

  lemma AddOne(counters: Counters, counts: seq<Event>, e: Event)
    ensures AddAll(counters, counts + [e])
            == if e.Counted? then AddAll(counters, counts).Increment(e.counter) else AddAll(counters, counts)
  {
    assert (counts + [e])[..|counts|] == counts;
  }

  /**
   A job over listings without repeats that meets no failure counts the same as a dry run as it does
   as a real run: the same counters for the same items in the same order, so after any number of items
   the two agree.
   */
  lemma DryRunPredicts(s: Mailbox, options: Options, world: Surroundings, mailSinceDate: Option<int>)
    requires WellFormed(world)
    requires var units := JobUnits(s, options, world, mailSinceDate);
             DistinctItems(units) && forall u :: u in units ==> Smooth(u)
    ensures var dry := JobTrace(s, [], options.(dryRun := true), world, mailSinceDate, None);
            var live := JobTrace(s, [], options.(dryRun := false), world, mailSinceDate, None);
            && dry.exit == Finished && live.exit == Finished
            && Counts(dry.events) == Counts(live.events)
            && Replay(s, dry.events).counters == Replay(s, live.events).counters
  {
    hide JobTrace, RunUnits, Replay, MailUnits, ObjectUnits, Counts, Smooth;
    var units := JobUnits(s, options, world, mailSinceDate);
    JobAsOneRun(s, options.(dryRun := true), world, mailSinceDate, None);
    JobAsOneRun(s, options.(dryRun := false), world, mailSinceDate, None);
    SameUnits(s, options, world, mailSinceDate, true);
    SameUnits(s, options, world, mailSinceDate, false);
    SameCounts(s, s, units, 0, 0);
    CountersAreCounts(s, RunUnits(s, true, units, 0, None).events);
    CountersAreCounts(s, RunUnits(s, false, units, 0, None).events);
  }

  lemma SameUnits(s: Mailbox, options: Options, world: Surroundings, mailSinceDate: Option<int>, dryRun: bool)
    requires WellFormed(world)
    ensures JobUnits(s, options.(dryRun := dryRun), world, mailSinceDate) == JobUnits(s, options, world, mailSinceDate)
  {
    hide MailUnits, AllCalendarUnits, ContactUnits;
  }
}
