/** What every history of runs keeps: copies of messages, DONE rows, versions of objects. */
module ImportSafety {
  import opened Wrappers
  import opened ImportModel
  import opened Runner
  import opened Histories

  // ---- legal events ---------------------------------------------------------

  /** When an event may follow `last` in state `s`; RunEnded stands for a finished run or a crash. */
  ghost predicate Legal(s: Mailbox, last: Option<Event>, e: Event) {
    match e
    case Appended(_, id) => NeedsImport(Row(s, Key(Mail, id)), None)
    case Stored(key, stamp) => key.category != Mail && NeedsImport(Row(s, key), Some(stamp))
    case RowDone(key, stamp) =>
      if key.category == Mail then stamp == None && IsAppend(last, key.externalId)
      else stamp.Some? && last == Some(Stored(key, stamp.value))
    case RowFailed(key) => key.category == Mail ==> NeedsImport(Row(s, key), None)
    case _ => true
  }

  predicate IsAppend(e: Option<Event>, id: string) {
    e.Some? && e.value.Appended? && e.value.messageId == id
  }

  predicate IsConfirmed(log: seq<Event>, id: string) {
    |log| > 0 && log[0].RowDone? && log[0].key == Key(Mail, id)
  }

  ghost predicate LegalFrom(s: Mailbox, last: Option<Event>, log: seq<Event>)
    decreases |log|
  {
    |log| == 0 || (Legal(s, last, log[0]) && LegalFrom(Apply(s, log[0]), Some(log[0]), log[1..]))
  }

  lemma LegalWeaken(s: Mailbox, last: Option<Event>, log: seq<Event>)
    requires LegalFrom(s, None, log)
    ensures LegalFrom(s, last, log)
  {
  }

  lemma {:induction false} LegalConcat(s: Mailbox, last: Option<Event>, first: seq<Event>, second: seq<Event>)
    requires LegalFrom(s, last, first) && LegalFrom(Replay(s, first), None, second)
    ensures LegalFrom(s, last, first + second)
    decreases |first|
  {
    hide Legal, Apply;
    if |first| == 0 {
      assert first + second == second;
      LegalWeaken(s, last, second);
    } else {
      ReplayFront(s, first);
      LegalConcat(Apply(s, first[0]), Some(first[0]), first[1..], second);
      assert (first + second)[1..] == first[1..] + second;
    }
  }

  lemma {:induction false} LegalPrefix(s: Mailbox, last: Option<Event>, log: seq<Event>, n: nat)
    requires LegalFrom(s, last, log) && n <= |log|
    ensures LegalFrom(s, last, log[..n])
    decreases |log|
  {
    hide Legal, Apply;
    if n > 0 {
      LegalPrefix(Apply(s, log[0]), Some(log[0]), log[1..], n - 1);
      assert log[..n][1..] == log[1..][..n - 1];
    }
  }

  // ---- every run is legal ---------------------------------------------------

  lemma LegalOne(s: Mailbox, e: Event)
    requires Legal(s, None, e)
    ensures LegalFrom(s, None, [e])
  {
    assert [e][1..] == [];
  }

  lemma {:induction false} TriesLegal(s: Mailbox, item: Item, attempts: seq<Attempt>)
    requires NeedsImport(Row(s, item.ItemKey()), item.Stamp())
    ensures var tried := Tries(attempts, item.Effect(), RowDone(item.ItemKey(), item.Stamp()));
            LegalFrom(s, None, tried.events)
            && (tried.raised ==> Replay(s, tried.events).items == s.items)
    decreases |attempts|
  {
    var effect, done := item.Effect(), RowDone(item.ItemKey(), item.Stamp());
    if |attempts| > 0 {
      var next := Apply(s, effect);
      assert next.items == s.items && Row(next, item.ItemKey()) == Row(s, item.ItemKey());
      if attempts[0] == Succeeds {
        assert [effect, done][1..] == [done] && [done][1..] == [];
      } else if attempts[0] == EffectOnly {
        var rest := Tries(attempts[1..], effect, done).events;
        TriesLegal(next, item, attempts[1..]);
        LegalWeaken(next, Some(effect), rest);
        assert ([effect] + rest)[1..] == rest;
        ReplayFront(s, [effect] + rest);
      } else {
        TriesLegal(s, item, attempts[1..]);
      }
    }
  }

  lemma CounterLegal(s: Mailbox, key: Key, counter: Counter, commits: Commits)
    ensures LegalFrom(s, None, CounterBlock(key, counter, commits).events)
  {
    LegalOne(s, Counted(key, counter));
  }

  lemma ItemLegal(s: Mailbox, dryRun: bool, item: Item, script: Script)
    ensures LegalFrom(s, None, ItemBlock(s, dryRun, item, script).events)
  {
    hide LegalFrom, Replay, CounterBlock, Tries;
    var key, row := item.ItemKey(), Row(s, item.ItemKey());
    var success := item.SuccessCounter(row.Some?);
    if !NeedsImport(row, item.Stamp()) {
      CounterLegal(s, key, Skipped, script.commits);
    } else if dryRun {
      CounterLegal(s, key, success, script.commits);
    } else {
      TriesLegal(s, item, script.attempts);
      var tried := Tries(script.attempts, item.Effect(), RowDone(key, item.Stamp()));
      var next := Replay(s, tried.events);
      if !tried.raised {
        CounterLegal(next, key, success, script.commits);
        LegalConcat(s, None, tried.events, CounterBlock(key, success, script.commits).events);
      } else if script.failureRecorded {
        LegalOne(next, RowFailed(key));
        LegalConcat(s, None, tried.events, [RowFailed(key)]);
        var failed := tried.events + [RowFailed(key)];
        CounterLegal(Replay(s, failed), key, Failures, script.commits);
        LegalConcat(s, None, failed, CounterBlock(key, Failures, script.commits).events);
      }
    }
  }

  predicate IsFolderEvent(e: Event) {
    e.FolderInserted? || e.FolderEnsured? || e.FolderMarked?
  }

  lemma FolderEvents(s: Mailbox, dryRun: bool, unit: Unit)
    requires unit.FolderUnit?
    ensures forall e :: e in UnitBlock(s, dryRun, unit).events ==> IsFolderEvent(e)
  {
  }

  lemma {:induction false} FolderEventsLegal(s: Mailbox, last: Option<Event>, events: seq<Event>)
    requires forall e :: e in events ==> IsFolderEvent(e)
    ensures LegalFrom(s, last, events)
    decreases |events|
  {
    if |events| > 0 {
      assert IsFolderEvent(events[0]);
      FolderEventsLegal(Apply(s, events[0]), Some(events[0]), events[1..]);
    }
  }

  lemma UnitLegal(s: Mailbox, dryRun: bool, unit: Unit)
    ensures LegalFrom(s, None, [Checked(false)] + UnitBlock(s, dryRun, unit).events)
  {
    hide LegalFrom, ItemBlock, FolderBlock;
    var block := UnitBlock(s, dryRun, unit).events;
    match unit {
      case FolderUnit(_, _, _, _) =>
        FolderEvents(s, dryRun, unit);
        FolderEventsLegal(s, None, block);
      case ItemUnit(item, script) => ItemLegal(s, dryRun, item, script);
      case Fault => FolderEventsLegal(s, None, block);
    }
    LegalOne(s, Checked(false));
    ReplayOne(s, [], Checked(false));
    assert [] + [Checked(false)] == [Checked(false)];
    LegalConcat(s, None, [Checked(false)], block);
  }

  lemma {:induction false} RunUnitsLegal(s: Mailbox, dryRun: bool, units: seq<Unit>, clock: nat, cancelAt: Option<nat>)
    ensures LegalFrom(s, None, RunUnits(s, dryRun, units, clock, cancelAt).events)
    decreases |units|
  {
    hide LegalFrom, UnitBlock, Replay;
    if |units| == 0 || units[0].Fault? {
      FolderEventsLegal(s, None, []);
    } else if CancelledBy(cancelAt, clock) {
      LegalOne(s, Checked(true));
    } else {
      var block := UnitBlock(s, dryRun, units[0]);
      var events := [Checked(false)] + block.events;
      UnitLegal(s, dryRun, units[0]);
      if !block.raised {
        var next, later := Replay(s, events), clock + |events|;
        RunUnitsLegal(next, dryRun, units[1..], later, cancelAt);
        LegalConcat(s, None, events, RunUnits(next, dryRun, units[1..], later, cancelAt).events);
      }
    }
  }

  // ---- histories ------------------------------------------------------------

  lemma RunLegal(s: Mailbox, run: JobRun)
    requires WellFormed(run.world)
    ensures LegalFrom(s, None, WholeLog(s, run))
  {
    hide RunUnits, JobUnits, LegalFrom, JobTrace, Replay;
    var events := JobTrace(s, [], run.options, run.world, run.mailSinceDate, run.cancelAt).events;
    var units := JobUnits(s, run.options, run.world, run.mailSinceDate);
    JobAsOneRun(s, run.options, run.world, run.mailSinceDate, run.cancelAt);
    RunUnitsLegal(s, run.options.dryRun, units, 0, run.cancelAt);
    LegalOne(Replay(s, events), WatermarkSet(run.startedAt));
    LegalConcat(s, None, events, [WatermarkSet(run.startedAt)]);
    assert events + [] == events;
    FolderEventsLegal(s, None, []);
  }

  lemma {:induction false} HistoryLegal(s: Mailbox, runs: seq<JobRun>)
    requires WellFormedRuns(runs)
    ensures LegalFrom(s, None, History(s, runs))
    decreases |runs|
  {
    hide LegalFrom, WholeLog, Replay;
    if |runs| == 0 {
      FolderEventsLegal(s, None, []);
    } else {
      var run := runs[0];
      var whole := WholeLog(s, run);
      var cut := Cut(whole, run.cut);
      RunLegal(s, run);
      if run.cut < |whole| {
        LegalPrefix(s, None, whole, run.cut);
      }
      LegalOne(Replay(s, cut), RunEnded);
      LegalConcat(s, None, cut, [RunEnded]);
      var events := RunEvents(s, run);
      HistoryLegal(Replay(s, events), runs[1..]);
      LegalConcat(s, None, events, History(Replay(s, events), runs[1..]));
    }
  }

  // ---- copies of a message --------------------------------------------------

  predicate IsDone(s: Mailbox, key: Key) {
    key in s.items && s.items[key].status == DONE
  }

  function DoneCount(s: Mailbox, id: string): nat {
    if IsDone(s, Key(Mail, id)) then 1 else 0
  }

  /** Appends of a message that took effect and were not followed by the commit of its success row. */
  function UnrecordedAppends(log: seq<Event>, id: string): nat
    decreases |log|
  {
    if |log| == 0 then 0
    else (if IsAppend(Some(log[0]), id) && !IsConfirmed(log[1..], id) then 1 else 0)
         + UnrecordedAppends(log[1..], id)
  }

  lemma CopiesStep(s: Mailbox, last: Option<Event>, e: Event, id: string)
    requires Legal(s, last, e) && (IsAppend(last, id) ==> !IsDone(s, Key(Mail, id)))
    ensures Apply(s, e).messages[id] == s.messages[id] + if IsAppend(Some(e), id) then 1 else 0
    ensures IsAppend(Some(e), id) ==> !IsDone(s, Key(Mail, id)) && !IsDone(Apply(s, e), Key(Mail, id))
    ensures DoneCount(Apply(s, e), id) == DoneCount(s, id) + if IsConfirmed([e], id) then 1 else 0
  {
  }

  lemma ConfirmedNeedsAppend(s: Mailbox, last: Option<Event>, log: seq<Event>, id: string)
    requires LegalFrom(s, last, log) && IsConfirmed(log, id)
    ensures IsAppend(last, id)
  {
  }

  lemma {:induction false} CopiesFollow(s: Mailbox, last: Option<Event>, log: seq<Event>, id: string)
    requires LegalFrom(s, last, log)
    requires IsAppend(last, id) ==> !IsDone(s, Key(Mail, id))
    ensures Replay(s, log).messages[id] + DoneCount(s, id) + (if IsConfirmed(log, id) then 1 else 0)
            == s.messages[id] + UnrecordedAppends(log, id) + DoneCount(Replay(s, log), id)
    decreases |log|
  {
    hide Replay, Legal, Apply;
    if |log| == 0 {
      ReplayQuiet(s);
    } else {
      ReplayFront(s, log);
      CopiesStep(s, last, log[0], id);
      if IsConfirmed(log[1..], id) {
        ConfirmedNeedsAppend(Apply(s, log[0]), Some(log[0]), log[1..], id);
      }
      CopiesFollow(Apply(s, log[0]), Some(log[0]), log[1..], id);
    }
  }

  /**
   Over every history that starts without the message, the target holds one copy for a DONE row
   and one for every append whose success was never recorded.
   */
  lemma MailCopies(s: Mailbox, runs: seq<JobRun>, id: string)
    requires WellFormedRuns(runs) && s.messages[id] == 0 && Key(Mail, id) !in s.items
    ensures var log := History(s, runs);
            Replay(s, log).messages[id] == UnrecordedAppends(log, id) + DoneCount(Replay(s, log), id)
  {
    hide History, Replay;
    HistoryLegal(s, runs);
    CopiesFollow(s, None, History(s, runs), id);
    NothingConfirmedFirst(s, History(s, runs), id);
  }

  lemma NothingConfirmedFirst(s: Mailbox, log: seq<Event>, id: string)
    requires LegalFrom(s, None, log)
    ensures !IsConfirmed(log, id)
  {
  }

  lemma {:induction false} DoneStays(s: Mailbox, last: Option<Event>, log: seq<Event>, id: string)
    requires LegalFrom(s, last, log) && IsDone(s, Key(Mail, id)) && !IsAppend(last, id)
    ensures IsDone(Replay(s, log), Key(Mail, id))
    ensures forall i :: 0 <= i < |log| ==> !IsAppend(Some(log[i]), id)
    decreases |log|
  {
    hide Replay;
    if |log| == 0 {
      ReplayQuiet(s);
    } else {
      ReplayFront(s, log);
      DoneStays(Apply(s, log[0]), Some(log[0]), log[1..], id);
    }
  }

  /** Once a message's row is DONE, no later run appends it again. */
  lemma DoneIsFinal(s: Mailbox, runs: seq<JobRun>, id: string)
    requires WellFormedRuns(runs) && IsDone(s, Key(Mail, id))
    ensures IsDone(Replay(s, History(s, runs)), Key(Mail, id))
    ensures Replay(s, History(s, runs)).messages[id] == s.messages[id]
    ensures forall e :: e in History(s, runs) ==> !IsAppend(Some(e), id)
  {
    hide History, Replay;
    HistoryLegal(s, runs);
    DoneStays(s, None, History(s, runs), id);
    NoAppendsNoCopies(s, History(s, runs), id);
  }

  lemma {:induction false} NoAppendsNoCopies(s: Mailbox, log: seq<Event>, id: string)
    requires forall i :: 0 <= i < |log| ==> !IsAppend(Some(log[i]), id)
    ensures Replay(s, log).messages[id] == s.messages[id]
  {
    if |log| > 0 {
      NoAppendsNoCopies(s, log[..|log| - 1], id);
    }
  }

  function AppendCount(log: seq<Event>): nat {
    if |log| == 0 then 0 else (if log[0].Appended? then 1 else 0) + AppendCount(log[1..])
  }

  lemma {:induction false} AppendCountConcat(first: seq<Event>, second: seq<Event>)
    ensures AppendCount(first + second) == AppendCount(first) + AppendCount(second)
  {
    if |first| == 0 {
      assert first + second == second;
    } else {
      assert (first + second)[1..] == first[1..] + second;
      AppendCountConcat(first[1..], second);
    }
  }

  lemma {:induction false} TriesAppends(attempts: seq<Attempt>, effect: Event, key: Key, stamp: Option<int>)
    ensures AppendCount(Tries(attempts, effect, RowDone(key, stamp)).events) <= |attempts|
    decreases |attempts|
  {
    if |attempts| > 0 {
      TriesAppends(attempts[1..], effect, key, stamp);
      var rest := Tries(attempts[1..], effect, RowDone(key, stamp)).events;
      assert ([effect] + rest)[1..] == rest;
      assert [effect, RowDone(key, stamp)][1..] == [RowDone(key, stamp)];
      assert AppendCount([RowDone(key, stamp)]) == 0;
    }
  }

  /** Processing one listed item appends at most MAX_ITEM_RETRIES times. */
  lemma AppendsBounded(s: Mailbox, dryRun: bool, item: Item, script: Script)
    ensures AppendCount(ItemBlock(s, dryRun, item, script).events) <= MAX_ITEM_RETRIES
  {
    hide Tries;
    var key := item.ItemKey();
    TriesAppends(script.attempts, item.Effect(), key, item.Stamp());
    var tried := Tries(script.attempts, item.Effect(), RowDone(key, item.Stamp())).events;
    forall counter: Counter
      ensures AppendCount(CounterBlock(key, counter, script.commits).events) == 0
    {
    }
    var success := item.SuccessCounter(Row(s, key).Some?);
    AppendCountConcat(tried, CounterBlock(key, success, script.commits).events);
    AppendCountConcat(tried, [RowFailed(key)]);
    AppendCountConcat(tried + [RowFailed(key)], CounterBlock(key, Failures, script.commits).events);
  }

  // ---- calendar and contact objects -----------------------------------------

  /** The target object of a DONE row was made from that version or a newer one. */
  ghost predicate NeverOlder(s: Mailbox) {
    forall key :: IsDone(s, key) && key.category != Mail && s.items[key].sourceModifiedAt.Some?
      ==> key in s.objects && s.objects[key] >= s.items[key].sourceModifiedAt.value
  }

  ghost predicate JustStored(s: Mailbox, last: Option<Event>) {
    last.Some? && last.value.Stored? ==> last.value.key in s.objects && s.objects[last.value.key] == last.value.stamp
  }

  lemma StepKeepsNeverOlder(s: Mailbox, last: Option<Event>, e: Event)
    requires Legal(s, last, e) && NeverOlder(s) && JustStored(s, last)
    ensures NeverOlder(Apply(s, e)) && JustStored(Apply(s, e), Some(e))
  {
  }

  lemma {:induction false} LegalKeepsNeverOlder(s: Mailbox, last: Option<Event>, log: seq<Event>)
    requires LegalFrom(s, last, log) && NeverOlder(s) && JustStored(s, last)
    ensures NeverOlder(Replay(s, log))
    decreases |log|
  {
    hide Replay, NeverOlder, JustStored, Legal;
    if |log| == 0 {
      ReplayQuiet(s);
    } else {
      StepKeepsNeverOlder(s, last, log[0]);
      ReplayFront(s, log);
      LegalKeepsNeverOlder(Apply(s, log[0]), Some(log[0]), log[1..]);
    }
  }

  /** No history of runs and crashes leaves a target object older than its DONE row says. */
  lemma ObjectsNeverOlder(s: Mailbox, runs: seq<JobRun>)
    requires WellFormedRuns(runs) && NeverOlder(s)
    ensures NeverOlder(Replay(s, History(s, runs)))
  {
    hide History, Replay, NeverOlder;
    HistoryLegal(s, runs);
    LegalKeepsNeverOlder(s, None, History(s, runs));
  }
}
