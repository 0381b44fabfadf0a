/** What the counters of a job count. */
module Counting {
  import opened Wrappers
  import opened ImportModel
  import opened Runner
  import opened Histories

  // ---- counters -------------------------------------------------------------

  /** The counts among the events, in order. */
  function Counts(events: seq<Event>): seq<Event> {
    if |events| == 0 then []
    else
      var last := events[|events| - 1];
      Counts(events[..|events| - 1]) + if last.Counted? then [last] else []
  }

  function CountedIn(events: seq<Event>): nat {
    |Counts(events)|
  }

  lemma {:induction false} CountsConcat(first: seq<Event>, second: seq<Event>)
    ensures Counts(first + second) == Counts(first) + Counts(second)
  {
    if |second| == 0 {
      assert first + second == first;
    } else {
      CountsConcat(first, second[..|second| - 1]);
      assert (first + second)[..|first + second| - 1] == first + second[..|second| - 1];
    }
  }

  lemma CountedConcat(first: seq<Event>, second: seq<Event>)
    ensures CountedIn(first + second) == CountedIn(first) + CountedIn(second)
  {
    CountsConcat(first, second);
  }

  /** Over any log, crashes and resumed runs included, the counters hold one for every committed count. */
  lemma {:induction false} CountersFollow(s: Mailbox, events: seq<Event>)
    ensures Replay(s, events).counters.Total() == s.counters.Total() + CountedIn(events)
  {
    if |events| > 0 {
      CountersFollow(s, events[..|events| - 1]);
    }
  }

  lemma {:induction false} TriesCountNothing(attempts: seq<Attempt>, effect: Event, done: Event)
    requires !effect.Counted? && !done.Counted?
    ensures CountedIn(Tries(attempts, effect, done).events) == 0
    decreases |attempts|
  {
    if |attempts| > 0 {
      var rest := Tries(attempts[1..], effect, done).events;
      TriesCountNothing(attempts[1..], effect, done);
      CountedConcat([effect], rest);
      assert [effect] + [done] == [effect, done];
      CountedConcat([effect], [done]);
    }
  }

  /** `record_failure` and the first commit of the counters succeed. */
  predicate WritesSucceed(script: Script) {
    script.failureRecorded && script.commits[0]
  }

  /** The first commit of the counters succeeds and the item gets that far. */
  predicate GetsCounted(s: Mailbox, dryRun: bool, item: Item, script: Script) {
    script.commits[0]
    && (dryRun || !NeedsImport(Row(s, item.ItemKey()), item.Stamp())
        || Succeeds in script.attempts || script.failureRecorded)
  }

  lemma CounterCounted(key: Key, counter: Counter, commits: Commits)
    ensures CountedIn(CounterBlock(key, counter, commits).events) == if commits[0] then 1 else 0
  {
    var count := Counted(key, counter);
    assert [count][..|[count]| - 1] == [];
    assert Counts([]) == [] && Counts([count]) == [count];
  }

  /** An item is counted at most once, and exactly when the first commit of its counter goes through. */
  lemma ItemCounted(s: Mailbox, dryRun: bool, item: Item, script: Script)
    ensures CountedIn(ItemBlock(s, dryRun, item, script).events)
            == if GetsCounted(s, dryRun, item, script) then 1 else 0
    ensures WritesSucceed(script) ==> !ItemBlock(s, dryRun, item, script).raised
  {
    hide Tries, CountedIn;
    var key := item.ItemKey();
    var success := item.SuccessCounter(Row(s, key).Some?);
    var tried := Tries(script.attempts, item.Effect(), RowDone(key, item.Stamp())).events;
    TriesEvents(script.attempts, item.Effect(), RowDone(key, item.Stamp()));
    TriesCountNothing(script.attempts, item.Effect(), RowDone(key, item.Stamp()));
    CounterCounted(key, Skipped, script.commits);
    CounterCounted(key, success, script.commits);
    CounterCounted(key, Failures, script.commits);
    UncountedTail(RowFailed(key));
    CountedConcat(tried, CounterBlock(key, success, script.commits).events);
    CountedConcat(tried, [RowFailed(key)]);
    CountedConcat(tried + [RowFailed(key)], CounterBlock(key, Failures, script.commits).events);
  }

  /** What a raised counter says about the item: its row and whether the target was touched. */
  predicate CounterTells(s: Mailbox, dryRun: bool, item: Item, counter: Counter, end: Mailbox) {
    var key := item.ItemKey();
    match counter
    case Skipped => end.items == s.items && end.messages == s.messages && end.objects == s.objects && key in s.items
    case Failures => !dryRun && key in end.items && end.items[key].status == FAILED
    case Created => (dryRun || IsImported(s, item, end)) && (key !in s.items || item.Message?)
    case Updated => (dryRun || IsImported(s, item, end)) && key in s.items && !item.Message?
  }

  /** The row is DONE with the item's stamp, and the target holds a new copy or the item's version. */
  predicate IsImported(s: Mailbox, item: Item, end: Mailbox) {
    var key := item.ItemKey();
    && key in end.items && end.items[key].status == DONE
    && (item.Message? ==> end.messages[item.id] > s.messages[item.id])
    && (!item.Message? ==>
          end.items[key].sourceModifiedAt == Some(item.stamp) && key in end.objects && end.objects[key] == item.stamp)
  }

  /** After the attempts the rows are untouched, or the item is imported. */
  lemma {:induction false} TriesOutcome(s: Mailbox, attempts: seq<Attempt>, item: Item)
    ensures var tried := Tries(attempts, item.Effect(), RowDone(item.ItemKey(), item.Stamp()));
            if tried.raised then Replay(s, tried.events).items == s.items
            else IsImported(s, item, Replay(s, tried.events))
    decreases |attempts|
  {
    hide Replay;
    var effect, done := item.Effect(), RowDone(item.ItemKey(), item.Stamp());
    ReplayQuiet(s);
    if |attempts| > 0 {
      var next := Apply(s, effect);
      if attempts[0] == Succeeds {
        assert [effect, done][1..] == [done] && [done][1..] == [];
        ReplayFront(s, [effect, done]);
        ReplayFront(next, [done]);
        ReplayQuiet(Apply(next, done));
      } else {
        var rest := Tries(attempts[1..], effect, done);
        TriesOutcome(s, attempts[1..], item);
        TriesOutcome(next, attempts[1..], item);
        ReplayFront(s, [effect] + rest.events);
        assert ([effect] + rest.events)[1..] == rest.events;
      }
    }
  }

  /** The counter an item raises agrees with what became of the item. */
  lemma CountersTellOutcome(s: Mailbox, dryRun: bool, item: Item, script: Script, counter: Counter)
    requires Counted(item.ItemKey(), counter) in ItemBlock(s, dryRun, item, script).events
    ensures CounterTells(s, dryRun, item, counter, Replay(s, ItemBlock(s, dryRun, item, script).events))
  {
    hide Replay, Tries;
    var key, row := item.ItemKey(), Row(s, item.ItemKey());
    var success := item.SuccessCounter(row.Some?);
    var tried := Tries(script.attempts, item.Effect(), RowDone(key, item.Stamp()));
    if dryRun || !NeedsImport(row, item.Stamp()) {
      assert [] + ItemBlock(s, dryRun, item, script).events == ItemBlock(s, dryRun, item, script).events;
      CountLast(s, [], key, if NeedsImport(row, item.Stamp()) then success else Skipped, script.commits, counter);
      ReplayQuiet(s);
    } else {
      TriesOutcome(s, script.attempts, item);
      TriesEvents(script.attempts, item.Effect(), RowDone(key, item.Stamp()));
      if !tried.raised {
        CountLast(s, tried.events, key, success, script.commits, counter);
      } else {
        CountLast(s, tried.events + [RowFailed(key)], key, Failures, script.commits, counter);
        ReplayOne(s, tried.events, RowFailed(key));
      }
    }
  }

  /** A count that follows uncounted events is the last event and changes the counters only. */
  lemma CountLast(s: Mailbox, events: seq<Event>, key: Key, counter: Counter, commits: Commits, found: Counter)
    requires (forall e :: e in events ==> !e.Counted?)
             && Counted(key, found) in events + CounterBlock(key, counter, commits).events
    ensures found == counter
    ensures var before, end := Replay(s, events), Replay(s, events + CounterBlock(key, counter, commits).events);
            end == before.(counters := before.counters.Increment(counter))
  {
    hide Replay;
    ReplayOne(s, events, Counted(key, counter));
  }

  lemma UnitCounted(s: Mailbox, dryRun: bool, unit: Unit)
    ensures CountedIn([Checked(false)] + UnitBlock(s, dryRun, unit).events)
            == if unit.ItemUnit? && GetsCounted(s, dryRun, unit.item, unit.script) then 1 else 0
  {
    hide ItemBlock, CountedIn, GetsCounted;
    CountedConcat([Checked(false)], UnitBlock(s, dryRun, unit).events);
    UncountedTail(Checked(false));
    match unit
    case ItemUnit(item, script) => ItemCounted(s, dryRun, item, script);
    case _ => NoCounts(UnitBlock(s, dryRun, unit).events);
  }

  lemma {:induction false} NoCounts(events: seq<Event>)
    requires forall i :: 0 <= i < |events| ==> !events[i].Counted?
    ensures CountedIn(events) == 0
  {
    if |events| > 0 {
      NoCounts(events[..|events| - 1]);
    }
  }

  // ---- runs -----------------------------------------------------------------

  /** Only the check before a unit is a check. */
  lemma UnitUnchecked(s: Mailbox, dryRun: bool, unit: Unit)
    ensures forall e :: e in UnitBlock(s, dryRun, unit).events ==> !e.Checked? && !e.WatermarkSet?
  {
    if unit.ItemUnit? {
      TriesEvents(unit.script.attempts, unit.item.Effect(), RowDone(unit.item.ItemKey(), unit.item.Stamp()));
    }
  }

  /** How many items a run starts to process before a crash cuts it off after `cut` events. */
  function ItemsStarted(s: Mailbox, dryRun: bool, units: seq<Unit>, clock: nat, cancelAt: Option<nat>, cut: nat): nat
    decreases |units|
  {
    if |units| == 0 || units[0].Fault? || CancelledBy(cancelAt, clock) || cut == 0 then 0
    else
      var events := [Checked(false)] + UnitBlock(s, dryRun, units[0]).events;
      (if units[0].ItemUnit? then 1 else 0)
      + if UnitBlock(s, dryRun, units[0]).raised || cut < |events| then 0
        else ItemsStarted(Replay(s, events), dryRun, units[1..], clock + |events|, cancelAt, cut - |events|)
  }

  /** Every item started is one that gets counted, and no crash comes before its count. */
  ghost predicate EachCounted(s: Mailbox, dryRun: bool, units: seq<Unit>, clock: nat, cancelAt: Option<nat>, cut: nat)
    decreases |units|
  {
    if |units| == 0 || units[0].Fault? || CancelledBy(cancelAt, clock) || cut == 0 then true
    else
      var events := [Checked(false)] + UnitBlock(s, dryRun, units[0]).events;
      (units[0].ItemUnit? ==> GetsCounted(s, dryRun, units[0].item, units[0].script) && |events| <= cut)
      && (UnitBlock(s, dryRun, units[0]).raised || cut < |events|
          || EachCounted(Replay(s, events), dryRun, units[1..], clock + |events|, cancelAt, cut - |events|))
  }

  /** The cut, if it is one, comes before a check or before the watermark, so never within a unit. */
  predicate BetweenUnits(events: seq<Event>, cut: nat) {
    cut < |events| ==> events[cut].Checked? || events[cut].WatermarkSet?
  }

  ghost predicate AllWritesSucceed(units: seq<Unit>) {
    forall u :: u in units && u.ItemUnit? ==> WritesSucceed(u.script)
  }

  lemma NothingCounted(cut: nat)
    ensures CountedIn(Cut([], cut)) == 0 && CountedIn(Cut([Checked(true)], cut)) == 0
  {
    UncountedTail(Checked(true));
  }

  /** A cut log of a unit and what follows. */
  lemma CutConcat(first: seq<Event>, second: seq<Event>, cut: nat)
    ensures Cut(first + second, cut) == if cut < |first| then first[..cut] else first + Cut(second, cut - |first|)
    ensures |first| <= cut && BetweenUnits(first + second, cut) ==> BetweenUnits(second, cut - |first|)
    ensures cut < |first| && BetweenUnits(first + second, cut) ==> first[cut].Checked? || first[cut].WatermarkSet?
  {
  }

  /** The count of an item is the last event of its block. */
  lemma CountIsLast(s: Mailbox, dryRun: bool, item: Item, script: Script)
    ensures var events := ItemBlock(s, dryRun, item, script).events;
            GetsCounted(s, dryRun, item, script) ==> |events| > 0 && events[|events| - 1].Counted?
  {
    hide Tries;
    TriesEvents(script.attempts, item.Effect(), RowDone(item.ItemKey(), item.Stamp()));
  }

  /** A unit cut off before its last event has counted nothing. */
  lemma CutUnitCounts(s: Mailbox, dryRun: bool, unit: Unit, cut: nat)
    requires cut <= |UnitBlock(s, dryRun, unit).events|
    ensures CountedIn(([Checked(false)] + UnitBlock(s, dryRun, unit).events)[..cut]) == 0
  {
    hide ItemBlock, FolderBlock, GetsCounted, CountedIn;
    var events := [Checked(false)] + UnitBlock(s, dryRun, unit).events;
    UnitCounted(s, dryRun, unit);
    CountedConcat(events[..cut], events[cut..]);
    assert events == events[..cut] + events[cut..];
    if unit.ItemUnit? && GetsCounted(s, dryRun, unit.item, unit.script) {
      CountIsLast(s, dryRun, unit.item, unit.script);
      var tail := events[cut..];
      LastCounts(tail);
    }
  }

  lemma LastCounts(events: seq<Event>)
    requires |events| > 0 && events[|events| - 1].Counted?
    ensures CountedIn(events) >= 1
  {
  }

  /** A run cut off anywhere counts at most the items it started, and them all exactly when each gets counted. */
  lemma {:induction false} RunCounts(s: Mailbox, dryRun: bool, units: seq<Unit>, clock: nat, cancelAt: Option<nat>,
                                     cut: nat)
    ensures var counted := CountedIn(Cut(RunUnits(s, dryRun, units, clock, cancelAt).events, cut));
            var started := ItemsStarted(s, dryRun, units, clock, cancelAt, cut);
            counted <= started && (counted == started <==> EachCounted(s, dryRun, units, clock, cancelAt, cut))
    decreases |units|
  {
    hide UnitBlock, Replay, GetsCounted, CountedIn, Cut;
    NothingCounted(cut);
    if |units| > 0 && !units[0].Fault? && !CancelledBy(cancelAt, clock) {
      var block := UnitBlock(s, dryRun, units[0]);
      var events := [Checked(false)] + block.events;
      var next, later := Replay(s, events), clock + |events|;
      var rest := if block.raised then [] else RunUnits(next, dryRun, units[1..], later, cancelAt).events;
      FirstCounts(s, dryRun, units[0], rest, cut);
      if !block.raised && |events| <= cut {
        RunCounts(next, dryRun, units[1..], later, cancelAt, cut - |events|);
      }
      assert events + [] == events;
      NothingCounted(if |events| <= cut then cut - |events| else 0);
    }
  }

  /** The first unit's share of the counts in a cut log. */
  lemma FirstCounts(s: Mailbox, dryRun: bool, unit: Unit, rest: seq<Event>, cut: nat)
    ensures var events := [Checked(false)] + UnitBlock(s, dryRun, unit).events;
            CountedIn(Cut(events + rest, cut))
            == if cut < |events| then 0
               else CountedIn(Cut(rest, cut - |events|))
                    + if unit.ItemUnit? && GetsCounted(s, dryRun, unit.item, unit.script) then 1 else 0
  {
    hide UnitBlock, GetsCounted, CountedIn, Cut;
    var events := [Checked(false)] + UnitBlock(s, dryRun, unit).events;
    CutConcat(events, rest, cut);
    UnitCounted(s, dryRun, unit);
    if cut < |events| {
      CutUnitCounts(s, dryRun, unit, cut);
    } else {
      CountedConcat(events, Cut(rest, cut - |events|));
    }
  }

  /** Each item is counted when all writes succeed and no crash falls within a unit. */
  lemma {:induction false} WritesCount(s: Mailbox, dryRun: bool, units: seq<Unit>, clock: nat, cancelAt: Option<nat>,
                                       cut: nat)
    requires AllWritesSucceed(units) && BetweenUnits(RunUnits(s, dryRun, units, clock, cancelAt).events, cut)
    ensures EachCounted(s, dryRun, units, clock, cancelAt, cut)
    decreases |units|
  {
    hide UnitBlock, Replay, WritesSucceed, GetsCounted, BetweenUnits;
    if |units| > 0 && !units[0].Fault? && !CancelledBy(cancelAt, clock) && cut > 0 {
      var unit, block := units[0], UnitBlock(s, dryRun, units[0]);
      var events := [Checked(false)] + block.events;
      var next, later := Replay(s, events), clock + |events|;
      var rest := if block.raised then [] else RunUnits(next, dryRun, units[1..], later, cancelAt).events;
      assert events + [] == events;
      FirstWhole(s, dryRun, unit, rest, cut);
      if unit.ItemUnit? {
        WrittenIsCounted(s, dryRun, unit.item, unit.script);
      }
      if !block.raised && |events| <= cut {
        WritesCount(next, dryRun, units[1..], later, cancelAt, cut - |events|);
      }
    }
  }

  /** A cut between units leaves the first one whole. */
  lemma FirstWhole(s: Mailbox, dryRun: bool, unit: Unit, rest: seq<Event>, cut: nat)
    requires cut > 0 && BetweenUnits([Checked(false)] + UnitBlock(s, dryRun, unit).events + rest, cut)
    ensures var events := [Checked(false)] + UnitBlock(s, dryRun, unit).events;
            |events| <= cut && BetweenUnits(rest, cut - |events|)
  {
    hide UnitBlock, BetweenUnits;
    var events := [Checked(false)] + UnitBlock(s, dryRun, unit).events;
    CutConcat(events, rest, cut);
    UnitUnchecked(s, dryRun, unit);
    assert forall i :: 1 <= i < |events| ==> events[i] in UnitBlock(s, dryRun, unit).events;
  }

  lemma WrittenIsCounted(s: Mailbox, dryRun: bool, item: Item, script: Script)
    ensures WritesSucceed(script) ==> GetsCounted(s, dryRun, item, script)
  {
  }

  // ---- jobs and their resumed attempts --------------------------------------

  /** How many items a run of a job starts before it is cut off. */
  ghost function RunItems(s: Mailbox, run: JobRun): nat
    requires WellFormed(run.world)
  {
    if !run.world.calls.started || !run.world.calls.refreshed then 0
    else
      ItemsStarted(s, run.options.dryRun, JobUnits(s, run.options, run.world, run.mailSinceDate), 0, run.cancelAt,
                   run.cut)
  }

  ghost function HistoryItems(s: Mailbox, runs: seq<JobRun>): nat
    requires WellFormedRuns(runs)
    decreases |runs|
  {
    if |runs| == 0 then 0
    else RunItems(s, runs[0]) + HistoryItems(Replay(s, RunEvents(s, runs[0])), runs[1..])
  }

  /** Every item the run starts gets counted, and no crash comes before its count. */
  ghost predicate CountsAll(s: Mailbox, run: JobRun)
    requires WellFormed(run.world)
  {
    run.world.calls.started && run.world.calls.refreshed ==>
      EachCounted(s, run.options.dryRun, JobUnits(s, run.options, run.world, run.mailSinceDate), 0, run.cancelAt,
                  run.cut)
  }

  ghost predicate HistoryCountsAll(s: Mailbox, runs: seq<JobRun>)
    requires WellFormedRuns(runs)
    decreases |runs|
  {
    |runs| == 0 || (CountsAll(s, runs[0]) && HistoryCountsAll(Replay(s, RunEvents(s, runs[0])), runs[1..]))
  }

  lemma JobCounts(s: Mailbox, run: JobRun)
    requires WellFormed(run.world)
    ensures CountedIn(RunEvents(s, run)) <= RunItems(s, run)
    ensures CountedIn(RunEvents(s, run)) == RunItems(s, run) <==> CountsAll(s, run)
  {
    hide JobTrace, JobUnits, RunUnits, CountedIn, ItemsStarted, EachCounted, Cut;
    var whole := WholeLog(s, run);
    CountedConcat(Cut(whole, run.cut), [RunEnded]);
    UncountedTail(RunEnded);
    if run.world.calls.started && run.world.calls.refreshed {
      var events := JobTrace(s, [], run.options, run.world, run.mailSinceDate, run.cancelAt).events;
      JobAsOneRun(s, run.options, run.world, run.mailSinceDate, run.cancelAt);
      RunCounts(s, run.options.dryRun, JobUnits(s, run.options, run.world, run.mailSinceDate), 0, run.cancelAt,
                run.cut);
      assert events + [] == events;
      CutTail(events, WatermarkSet(run.startedAt), run.cut);
    } else {
      NothingCounted(run.cut);
    }
  }

  lemma UncountedTail(e: Event)
    requires !e.Counted?
    ensures CountedIn([e]) == 0
  {
    assert [e][..|[e]| - 1] == [] && Counts([]) == [];
  }

  /** An uncounted last event changes nothing. */
  lemma CutTail(events: seq<Event>, e: Event, cut: nat)
    requires e.WatermarkSet?
    ensures CountedIn(Cut(events + [e], cut)) == CountedIn(Cut(events, cut))
    ensures BetweenUnits(events + [e], cut) ==> BetweenUnits(events, cut)
  {
    hide CountedIn;
    if cut < |events| {
      assert (events + [e])[..cut] == events[..cut];
    } else if cut == |events| {
      assert (events + [e])[..cut] == events;
    } else {
      CountedConcat(events, [e]);
      UncountedTail(e);
    }
  }

  /** It is enough that all writes go through and no crash falls within a unit. */
  lemma SmoothRunCountsAll(s: Mailbox, run: JobRun)
    requires WellFormed(run.world)
    requires AllWritesSucceed(JobUnits(s, run.options, run.world, run.mailSinceDate))
    requires BetweenUnits(WholeLog(s, run), run.cut)
    ensures CountsAll(s, run)
  {
    hide JobTrace, JobUnits, RunUnits, AllWritesSucceed, BetweenUnits, EachCounted;
    if run.world.calls.started && run.world.calls.refreshed {
      var events := JobTrace(s, [], run.options, run.world, run.mailSinceDate, run.cancelAt).events;
      JobAsOneRun(s, run.options, run.world, run.mailSinceDate, run.cancelAt);
      assert events + [] == events;
      CutTail(events, WatermarkSet(run.startedAt), run.cut);
      WritesCount(s, run.options.dryRun, JobUnits(s, run.options, run.world, run.mailSinceDate), 0, run.cancelAt,
                  run.cut);
    }
  }

  /**
   Over a job's first attempt and all resumed ones, crashes anywhere, the counters never hold more than
   the items started; they hold exactly these if and only if each item that a run started gets to the
   first commit of its counter, that commit succeeds, and no crash comes before it.
   */
  lemma {:induction false} Conservation(s: Mailbox, runs: seq<JobRun>)
    requires WellFormedRuns(runs)
    ensures var total := Replay(s, History(s, runs)).counters.Total();
            s.counters.Total() <= total <= s.counters.Total() + HistoryItems(s, runs)
            && (total == s.counters.Total() + HistoryItems(s, runs) <==> HistoryCountsAll(s, runs))
    decreases |runs|
  {
    hide RunEvents, Replay, RunItems, CountsAll;
    if |runs| == 0 {
      ReplayQuiet(s);
    } else {
      var events := RunEvents(s, runs[0]);
      JobCounts(s, runs[0]);
      CountersFollow(s, events);
      Conservation(Replay(s, events), runs[1..]);
      ReplayConcat(s, events, History(Replay(s, events), runs[1..]));
    }
  }
}
