/** Folders come before their messages: every APPEND finds its mailbox. */
module Readiness {
  import opened Wrappers
  import opened FolderMapping
  import opened ImportModel
  import opened Runner
  import opened Histories
  import opened ImportSafety
  import opened Cancellation

  // ---- folders before messages ----------------------------------------------

  /** The mailbox of every marked folder exists. */
  ghost predicate MarkedExist(s: Mailbox, paths: map<string, string>) {
    forall id :: id in s.folders && s.folders[id].created ==> id in paths && paths[id] in s.imapFolders
  }

  /** Every message goes to the mailbox of a folder listed before it. */
  ghost predicate FoldersFirst(units: seq<Unit>, paths: map<string, string>, listed: set<string>)
    decreases |units|
  {
    |units| == 0 ||
    match units[0]
    case FolderUnit(id, _, path, _) =>
      id in paths && paths[id] == path && FoldersFirst(units[1..], paths, listed + {path})
    case ItemUnit(item, _) => (item.Message? ==> item.path in listed) && FoldersFirst(units[1..], paths, listed)
    case Fault => FoldersFirst(units[1..], paths, listed)
  }

  /** Along the events every APPEND finds its mailbox and every mark its folder's. */
  ghost predicate Ready(s: Mailbox, events: seq<Event>, paths: map<string, string>)
    decreases |events|
  {
    MarkedExist(s, paths) &&
    (|events| == 0 ||
     ((events[0].Appended? ==> events[0].path in s.imapFolders) && Ready(Apply(s, events[0]), events[1..], paths)))
  }

  lemma {:induction false} ReadyConcat(s: Mailbox, first: seq<Event>, second: seq<Event>, paths: map<string, string>)
    requires Ready(s, first, paths) && Ready(Replay(s, first), second, paths)
    ensures Ready(s, first + second, paths)
    decreases |first|
  {
    hide Apply, MarkedExist;
    if |first| == 0 {
      ReplayQuiet(s);
      assert first + second == second;
    } else {
      ReplayFront(s, first);
      ReadyConcat(Apply(s, first[0]), first[1..], second, paths);
      assert (first + second)[1..] == first[1..] + second;
    }
  }

  /** An item's events keep the folders; a message's appends need its mailbox. */
  lemma {:induction false} ItemEventsReady(s: Mailbox, events: seq<Event>, paths: map<string, string>)
    requires MarkedExist(s, paths)
    requires forall e :: e in events ==> SubjectOf(e).OfItem? || e.Checked?
    requires forall e :: e in events && e.Appended? ==> e.path in s.imapFolders
    ensures Ready(s, events, paths)
    ensures Replay(s, events).imapFolders == s.imapFolders
    decreases |events|
  {
    if |events| == 0 {
      ReplayQuiet(s);
    } else {
      assert events[0] in events;
      ItemEventsReady(Apply(s, events[0]), events[1..], paths);
      ReplayFront(s, events);
    }
  }

  lemma ItemReady(s: Mailbox, dryRun: bool, item: Item, script: Script, paths: map<string, string>)
    requires MarkedExist(s, paths) && (item.Message? && !dryRun ==> item.path in s.imapFolders)
    ensures var events := ItemBlock(s, dryRun, item, script).events;
            Ready(s, events, paths) && Replay(s, events).imapFolders == s.imapFolders
  {
    hide Ready, MarkedExist, Replay;
    var events := ItemBlock(s, dryRun, item, script).events;
    TriesEvents(script.attempts, item.Effect(), RowDone(item.ItemKey(), item.Stamp()));
    ItemEventsReady(s, events, paths);
  }

  lemma FolderReady(s: Mailbox, id: string, graphPath: string, path: string, script: FolderScript,
                    paths: map<string, string>)
    requires MarkedExist(s, paths) && id in paths && paths[id] == path
    ensures var block := FolderBlock(s, false, id, graphPath, path, script);
            && Ready(s, block.events, paths)
            && s.imapFolders <= Replay(s, block.events).imapFolders
            && (!block.raised ==> path in Replay(s, block.events).imapFolders)
  {
    var block := FolderBlock(s, false, id, graphPath, path, script);
    var inserted, ensured, marked := FolderInserted(id, graphPath, path), FolderEnsured(id, path), FolderMarked(id);
    var start := if id in s.folders then s else Apply(s, inserted);
    if id in s.folders {
      EnsureReady(s, id, path, script.ensured, paths);
      ReplayQuiet(s);
    } else if script.inserted {
      EnsureReady(start, id, path, script.ensured, paths);
      var rest := EnsureEvents(id, path, script.ensured).events;
      assert ([inserted] + rest)[1..] == rest;
      ReplayFront(s, [inserted] + rest);
    } else {
      ReplayQuiet(s);
    }
  }

  lemma EnsureReady(s: Mailbox, id: string, path: string, ensured: Attempt, paths: map<string, string>)
    requires MarkedExist(s, paths) && id in s.folders && id in paths && paths[id] == path
    ensures var block := EnsureEvents(id, path, ensured);
            && Ready(s, block.events, paths)
            && s.imapFolders <= Replay(s, block.events).imapFolders
            && (!block.raised ==> path in Replay(s, block.events).imapFolders)
  {
    var made, marked := FolderEnsured(id, path), FolderMarked(id);
    var next := Apply(s, made);
    match ensured {
      case NoEffect => ReplayQuiet(s);
      case EffectOnly =>
        assert [made][1..] == [];
        ReplayFront(s, [made]);
        ReplayQuiet(next);
      case Succeeds =>
        assert [made, marked][1..] == [marked] && [marked][1..] == [];
        ReplayFront(s, [made, marked]);
        ReplayFront(next, [marked]);
        ReplayQuiet(Apply(next, marked));
    }
  }

  lemma DryFolderReady(s: Mailbox, id: string, graphPath: string, path: string, script: FolderScript,
                       paths: map<string, string>)
    requires MarkedExist(s, paths)
    ensures Ready(s, FolderBlock(s, true, id, graphPath, path, script).events, paths)
  {
    var inserted := FolderInserted(id, graphPath, path);
    assert [inserted][1..] == [];
  }

  /** With unchanged paths every APPEND of a run goes to a mailbox that exists. */
  lemma {:induction false} AppendsReady(s: Mailbox, dryRun: bool, units: seq<Unit>, paths: map<string, string>,
                                        listed: set<string>, clock: nat, cancelAt: Option<nat>)
    requires MarkedExist(s, paths) && FoldersFirst(units, paths, listed) && (dryRun || listed <= s.imapFolders)
    ensures Ready(s, RunUnits(s, dryRun, units, clock, cancelAt).events, paths)
    decreases |units|
  {
    hide UnitBlock, Replay, MarkedExist, Apply;
    CheckReady(s, paths);
    if |units| > 0 && !units[0].Fault? && !CancelledBy(cancelAt, clock) {
      var block := UnitBlock(s, dryRun, units[0]);
      var events := [Checked(false)] + block.events;
      UnitReady(s, dryRun, units[0], paths, listed);
      if !block.raised {
        var next, later := Replay(s, events), clock + |events|;
        EndReady(s, events, paths);
        var more := match units[0] case FolderUnit(_, _, path, _) => listed + {path} case _ => listed;
        AppendsReady(next, dryRun, units[1..], paths, more, later, cancelAt);
        ReadyConcat(s, events, RunUnits(next, dryRun, units[1..], later, cancelAt).events, paths);
      }
    }
  }

  lemma CheckReady(s: Mailbox, paths: map<string, string>)
    requires MarkedExist(s, paths)
    ensures Ready(s, [], paths) && Ready(s, [Checked(true)], paths) && Ready(s, [Checked(false)], paths)
  {
    assert [Checked(true)][1..] == [] && [Checked(false)][1..] == [];
  }

  lemma UnitReady(s: Mailbox, dryRun: bool, unit: Unit, paths: map<string, string>, listed: set<string>)
    requires MarkedExist(s, paths) && FoldersFirst([unit], paths, listed) && !unit.Fault?
    requires dryRun || listed <= s.imapFolders
    ensures var block := UnitBlock(s, dryRun, unit);
            var end := Replay(s, [Checked(false)] + block.events);
            && Ready(s, [Checked(false)] + block.events, paths)
            && (!dryRun ==> listed <= end.imapFolders)
            && (!dryRun && unit.FolderUnit? && !block.raised ==> unit.path in end.imapFolders)
  {
    hide Ready, MarkedExist, ItemBlock, FolderBlock, Replay;
    var block := UnitBlock(s, dryRun, unit);
    CheckReady(s, paths);
    ReplayQuiet(s);
    match unit {
      case FolderUnit(id, graphPath, path, script) =>
        if dryRun {
          DryFolderReady(s, id, graphPath, path, script, paths);
        } else {
          FolderReady(s, id, graphPath, path, script, paths);
        }
      case ItemUnit(item, script) => ItemReady(s, dryRun, item, script, paths);
    }
    ReadyConcat(s, [Checked(false)], block.events, paths);
    ReplayConcat(s, [Checked(false)], block.events);
  }

  lemma {:induction false} EndReady(s: Mailbox, events: seq<Event>, paths: map<string, string>)
    requires Ready(s, events, paths)
    ensures MarkedExist(Replay(s, events), paths)
    decreases |events|
  {
    hide Apply, MarkedExist;
    if |events| == 0 {
      ReplayQuiet(s);
    } else {
      ReplayFront(s, events);
      EndReady(Apply(s, events[0]), events[1..], paths);
    }
  }

  // ---- folder readiness over histories --------------------------------------

  lemma {:induction false} EntriesFirst(category: Category, path: string, entries: seq<Entry>, tail: seq<Unit>,
                                        paths: map<string, string>, listed: set<string>)
    requires (category == Mail ==> path in listed) && FoldersFirst(tail, paths, listed)
    ensures FoldersFirst(EntryUnits(category, path, entries) + tail, paths, listed)
  {
    if |entries| == 0 {
      assert EntryUnits(category, path, entries) + tail == tail;
    } else {
      EntriesFirst(category, path, entries[1..], tail, paths, listed);
      EntryStep(category, path, entries, 0, tail);
      assert entries[0..] == entries;
    }
  }

  lemma FaultFirst(raises: bool, tail: seq<Unit>, paths: map<string, string>, listed: set<string>)
    requires FoldersFirst(tail, paths, listed)
    ensures FoldersFirst(FaultIf(raises) + tail, paths, listed)
  {
    assert [] + tail == tail;
    assert ([Fault] + tail)[1..] == tail;
  }

  lemma ListingFirst(category: Category, path: string, listing: Listing, tail: seq<Unit>,
                     paths: map<string, string>, listed: set<string>)
    requires (category == Mail ==> path in listed) && FoldersFirst(tail, paths, listed)
    ensures FoldersFirst(ListingUnits(category, path, listing) + tail, paths, listed)
  {
    hide FoldersFirst, EntryUnits, FaultIf;
    var rest := FaultIf(listing.raises) + tail;
    FaultFirst(listing.raises, tail, paths, listed);
    EntriesFirst(category, path, listing.entries, rest, paths, listed);
    assert ListingUnits(category, path, listing) + tail == EntryUnits(category, path, listing.entries) + rest;
  }

  lemma {:induction false} MailFoldersFirst(folders: seq<Folder>, graphPaths: map<string, string>,
                                            paths: map<string, string>,
                                            world: Surroundings, since: Option<int>, listed: set<string>)
    requires forall f :: f in folders ==> f.id in graphPaths && f.id in paths
    ensures FoldersFirst(FolderUnits(folders, graphPaths, paths, world, since), paths, listed)
  {
    if |folders| > 0 {
      var id := folders[0].id;
      var tail := FolderUnits(folders[1..], graphPaths, paths, world, since);
      MailFoldersFirst(folders[1..], graphPaths, paths, world, since, listed + {paths[id]});
      ListingFirst(Mail, paths[id], world.messages(id, since), tail, paths, listed + {paths[id]});
      var first := FolderUnit(id, graphPaths[id], paths[id], world.folderScript(id));
      var rest := ListingUnits(Mail, paths[id], world.messages(id, since)) + tail;
      assert ([first] + rest)[1..] == rest;
    }
  }

  lemma {:induction false} CalendarsFirst(calendars: seq<string>, world: Surroundings, since: Option<int>,
                                          tail: seq<Unit>,
                                          paths: map<string, string>)
    requires FoldersFirst(tail, paths, {})
    ensures FoldersFirst(CalendarUnits(calendars, world, since) + tail, paths, {})
  {
    if |calendars| == 0 {
      assert CalendarUnits(calendars, world, since) + tail == tail;
    } else {
      CalendarsFirst(calendars[1..], world, since, tail, paths);
      assert calendars[0..] == calendars;
      CalendarStep(calendars, 0, world, since, tail);
      var rest := CalendarUnits(calendars[1..], world, since) + tail;
      ListingFirst(Calendar, "", world.events(calendars[0], since), rest, paths, {});
    }
  }

  lemma ObjectUnitsFirst(options: Options, world: Surroundings, since: Option<int>, paths: map<string, string>)
    ensures FoldersFirst(ObjectUnits(options, world, since), paths, {})
  {
    var contacts := if options.migrateContacts then ContactUnits(world, since) else [];
    if options.migrateContacts {
      ListingFirst(Contacts, "", world.contacts(since), [], paths, {});
      assert ContactUnits(world, since) + [] == ContactUnits(world, since);
    }
    if options.migrateCalendar && world.calendars.Some? {
      CalendarsFirst(world.calendars.value, world, since, contacts, paths);
    } else if options.migrateCalendar {
      assert ([Fault] + contacts)[1..] == contacts;
    } else {
      assert [] + contacts == contacts;
    }
  }

  /** The runs all see one folder tree and one delimiter. */
  ghost predicate SameTree(runs: seq<JobRun>, folders: seq<Folder>, delimiter: char)
    requires WellFormedRuns(runs) && Acyclic(ById(folders))
  {
    forall run :: run in runs ==>
      run.world.delimiter == delimiter && (run.world.folders.Some? ==> run.world.folders.value == folders)
  }

  lemma {:induction false} FirstConcat(first: seq<Unit>, second: seq<Unit>, paths: map<string, string>,
                                       listed: set<string>)
    requires FoldersFirst(first, paths, listed) && FoldersFirst(second, paths, {})
    ensures FoldersFirst(first + second, paths, listed)
    decreases |first|
  {
    if |first| == 0 {
      assert first + second == second;
      FirstMore(second, paths, {}, listed);
    } else {
      assert (first + second)[0] == first[0] && (first + second)[1..] == first[1..] + second;
      var more := match first[0] case FolderUnit(_, _, path, _) => listed + {path} case _ => listed;
      FirstConcat(first[1..], second, paths, more);
    }
  }

  lemma {:induction false} FirstMore(units: seq<Unit>, paths: map<string, string>, listed: set<string>,
                                     more: set<string>)
    requires FoldersFirst(units, paths, listed) && listed <= more
    ensures FoldersFirst(units, paths, more)
    decreases |units|
  {
    if |units| > 0 {
      if units[0].FolderUnit? {
        FirstMore(units[1..], paths, listed + {units[0].path}, more + {units[0].path});
      } else {
        FirstMore(units[1..], paths, listed, more);
      }
    }
  }

  lemma JobUnitsFirst(s: Mailbox, run: JobRun, folders: seq<Folder>)
    requires WellFormed(run.world) && Acyclic(ById(folders))
    requires run.world.folders.Some? ==> run.world.folders.value == folders
    ensures FoldersFirst(JobUnits(s, run.options, run.world, run.mailSinceDate),
                         PathMap(folders, ImapNaming(run.world.delimiter)), {})
  {
    hide MailUnits, ObjectUnits, PlainPath, FoldersFirst;
    var world, paths := run.world, PathMap(folders, ImapNaming(run.world.delimiter));
    var modifiedSince := ModifiedSince(run.options, s.watermark);
    var since := MailSince(run.mailSinceDate, modifiedSince);
    NoFoldersFirst(paths);
    if !world.setupRaises && !world.clientRaises {
      ObjectUnitsFirst(run.options, world, modifiedSince, paths);
      MailUnitsFirst(world, since, folders);
      FirstConcat(MailUnits(world, since), FaultIf(world.closeRaises), paths, {});
      FirstConcat(PassUnits(run.options, world, since), ObjectUnits(run.options, world, modifiedSince), paths, {});
    }
  }

  lemma NoFoldersFirst(paths: map<string, string>)
    ensures FoldersFirst([], paths, {}) && FoldersFirst([Fault], paths, {})
  {
    assert [Fault][1..] == [];
  }

  lemma RunReady(s: Mailbox, run: JobRun, folders: seq<Folder>, delimiter: char)
    requires WellFormed(run.world) && Acyclic(ById(folders)) && run.world.delimiter == delimiter
    requires run.world.folders.Some? ==> run.world.folders.value == folders
    requires MarkedExist(s, PathMap(folders, ImapNaming(delimiter)))
    ensures Ready(s, WholeLog(s, run), PathMap(folders, ImapNaming(delimiter)))
  {
    hide RunUnits, JobUnits, JobTrace, MarkedExist, Ready, PlainPath, FoldersFirst;
    var paths, units := PathMap(folders, ImapNaming(delimiter)), JobUnits(s, run.options, run.world, run.mailSinceDate);
    var events := JobTrace(s, [], run.options, run.world, run.mailSinceDate, run.cancelAt).events;
    CheckReady(s, paths);
    JobUnitsFirst(s, run, folders);
    JobAsOneRun(s, run.options, run.world, run.mailSinceDate, run.cancelAt);
    AppendsReady(s, run.options.dryRun, units, paths, {}, 0, run.cancelAt);
    EndReady(s, events, paths);
    QuietReady(Replay(s, events), WatermarkSet(run.startedAt), paths);
    ReadyConcat(s, events, [WatermarkSet(run.startedAt)], paths);
    assert events + [] == events;
  }

  lemma MailUnitsFirst(world: Surroundings, since: Option<int>, folders: seq<Folder>)
    requires WellFormed(world) && Acyclic(ById(folders)) && (world.folders.Some? ==> world.folders.value == folders)
    ensures FoldersFirst(MailUnits(world, since), PathMap(folders, ImapNaming(world.delimiter)), {})
  {
    hide PlainPath;
    var paths := PathMap(folders, ImapNaming(world.delimiter));
    if Connects(world) && world.folders.Some? {
      MailFoldersFirst(folders, PathMap(folders, GraphNaming), paths, world, since, {});
    }
  }

  lemma {:induction false} HistoryReady(s: Mailbox, runs: seq<JobRun>, folders: seq<Folder>, delimiter: char)
    requires WellFormedRuns(runs) && Acyclic(ById(folders)) && SameTree(runs, folders, delimiter)
    requires MarkedExist(s, PathMap(folders, ImapNaming(delimiter)))
    ensures Ready(s, History(s, runs), PathMap(folders, ImapNaming(delimiter)))
    decreases |runs|
  {
    hide WholeLog, Ready, MarkedExist, Replay, PathMap;
    var paths := PathMap(folders, ImapNaming(delimiter));
    if |runs| == 0 {
      CheckReady(s, paths);
    } else {
      var run := runs[0];
      var whole := WholeLog(s, run);
      var cut := Cut(whole, run.cut);
      RunReady(s, run, folders, delimiter);
      if run.cut < |whole| {
        PrefixReady(s, whole, run.cut, paths);
      }
      EndReady(s, cut, paths);
      QuietReady(Replay(s, cut), RunEnded, paths);
      ReadyConcat(s, cut, [RunEnded], paths);
      var events := RunEvents(s, run);
      EndReady(s, events, paths);
      HistoryReady(Replay(s, events), runs[1..], folders, delimiter);
      ReadyConcat(s, events, History(Replay(s, events), runs[1..]), paths);
    }
  }

  lemma QuietReady(s: Mailbox, e: Event, paths: map<string, string>)
    requires MarkedExist(s, paths) && (e.RunEnded? || e.WatermarkSet?)
    ensures Ready(s, [e], paths)
  {
    assert [e][1..] == [];
  }

  lemma {:induction false} PrefixReady(s: Mailbox, events: seq<Event>, n: nat, paths: map<string, string>)
    requires Ready(s, events, paths) && n <= |events|
    ensures Ready(s, events[..n], paths)
    decreases |events|
  {
    hide Apply, MarkedExist;
    if n > 0 {
      PrefixReady(Apply(s, events[0]), events[1..], n - 1, paths);
      assert events[..n][1..] == events[1..][..n - 1];
    }
  }

  lemma {:induction false} ReadyAt(s: Mailbox, events: seq<Event>, paths: map<string, string>, i: nat)
    requires Ready(s, events, paths) && i < |events| && events[i].Appended?
    ensures events[i].path in Replay(s, events[..i]).imapFolders
    decreases |events|
  {
    hide Apply, MarkedExist;
    if i == 0 {
      ReplayQuiet(s);
    } else {
      ReadyAt(Apply(s, events[0]), events[1..], paths, i - 1);
      assert events[..i][1..] == events[1..][..i - 1];
      ReplayFront(s, events[..i]);
    }
  }

  /**
   Over every history of runs and crashes that starts without folder rows, while the folder tree and
   the delimiter stay the same, every APPEND goes to a mailbox that exists at that moment.
   */
  lemma EveryAppendHasItsMailbox(s: Mailbox, runs: seq<JobRun>, folders: seq<Folder>, delimiter: char, i: nat)
    requires WellFormedRuns(runs) && Acyclic(ById(folders)) && SameTree(runs, folders, delimiter)
    requires s.folders == map[] && i < |History(s, runs)| && History(s, runs)[i].Appended?
    ensures History(s, runs)[i].path in Replay(s, History(s, runs)[..i]).imapFolders
  {
    hide History, PathMap, Ready;
    HistoryReady(s, runs, folders, delimiter);
    ReadyAt(s, History(s, runs), PathMap(folders, ImapNaming(delimiter)), i);
  }
}
