/**
 Folder rows keep their mark when a folder is renamed or moved. Exactly when do all messages of the
 next run still find their mailbox?
 */
module RenamedFolders {
  import opened Wrappers
  import opened Text
  import opened FolderMapping
  import opened ImportModel
  import opened Runner
  import opened Histories
  import opened Readiness

  // ---- appends that land ----------------------------------------------------

  /** Every APPEND finds its mailbox in place. */
  ghost predicate Lands(s: Mailbox, events: seq<Event>)
    decreases |events|
  {
    |events| == 0 ||
    ((events[0].Appended? ==> events[0].path in s.imapFolders) && Lands(Apply(s, events[0]), events[1..]))
  }

  /** That is a statement about every position of the log. */
  lemma {:induction false} LandsEverywhere(s: Mailbox, events: seq<Event>)
    ensures Lands(s, events)
            <==> forall i :: 0 <= i < |events| && events[i].Appended?
                   ==> events[i].path in Replay(s, events[..i]).imapFolders
    decreases |events|
  {
    hide Apply;
    if |events| > 0 {
      var next, rest := Apply(s, events[0]), events[1..];
      LandsEverywhere(next, rest);
      ReplayQuiet(s);
      assert events[..0] == [];
      forall i | 0 <= i < |rest| ensures Replay(s, events[..i + 1]) == Replay(next, rest[..i]) {
        ReplayFront(s, events[..i + 1]);
        assert events[..i + 1][1..] == rest[..i];
      }
      assert forall i :: 0 < i < |events| ==> events[i] == rest[i - 1];
    }
  }

  lemma {:induction false} LandsConcat(s: Mailbox, first: seq<Event>, second: seq<Event>)
    ensures Lands(s, first + second) <==> Lands(s, first) && Lands(Replay(s, first), second)
    decreases |first|
  {
    hide Apply;
    if |first| == 0 {
      ReplayQuiet(s);
      assert first + second == second;
    } else {
      ReplayFront(s, first);
      LandsConcat(Apply(s, first[0]), first[1..], second);
      assert (first + second)[1..] == first[1..] + second;
    }
  }

  lemma {:induction false} NoAppendsLand(s: Mailbox, events: seq<Event>)
    requires forall e :: e in events ==> !e.Appended?
    ensures Lands(s, events)
    decreases |events|
  {
    if |events| > 0 {
      assert events[0] in events;
      NoAppendsLand(Apply(s, events[0]), events[1..]);
    }
  }

  // ---- the condition --------------------------------------------------------

  predicate IsMarked(s: Mailbox, id: string) {
    id in s.folders && s.folders[id].created
  }

  /**
   Each listed folder whose row is marked has a mailbox under its present path, or comes after a folder
   that is not marked and has that path too.
   */
  ghost predicate MarksOpen(s: Mailbox, folders: seq<Folder>, paths: map<string, string>)
    requires forall f :: f in folders ==> f.id in paths
  {
    forall i :: 0 <= i < |folders| && IsMarked(s, folders[i].id) && paths[folders[i].id] !in s.imapFolders
      ==> exists j :: 0 <= j < i && !IsMarked(s, folders[j].id) && paths[folders[j].id] == paths[folders[i].id]
  }

  /** A mailbox exists exactly when it was there at first or some event ensured it. */
  lemma {:induction false} MailboxesAreEnsured(s: Mailbox, log: seq<Event>, path: string)
    ensures path in Replay(s, log).imapFolders
            <==> path in s.imapFolders || exists e :: e in log && e.FolderEnsured? && e.path == path
  {
    if |log| > 0 {
      var init, last := log[..|log| - 1], log[|log| - 1];
      MailboxesAreEnsured(s, init, path);
      assert log == init + [last];
    }
  }

  // ---- with the condition every append lands --------------------------------

  /** Along the units, a marked folder finds its path open and every message goes to an open path. */
  ghost predicate Opens(units: seq<Unit>, marked: set<string>, open: set<string>)
    decreases |units|
  {
    |units| == 0 ||
    match units[0]
    case FolderUnit(id, _, path, _) => (id in marked ==> path in open)
      && Opens(units[1..], marked + {id}, open + {path})
    case ItemUnit(item, _) => (item.Message? ==> item.path in open) && Opens(units[1..], marked, open)
    case Fault => Opens(units[1..], marked, open)
  }

  predicate IsInert(unit: Unit) {
    !unit.FolderUnit? && (unit.ItemUnit? ==> !unit.item.Message?)
  }

  lemma {:induction false} InertOpens(units: seq<Unit>, marked: set<string>, open: set<string>)
    requires forall u :: u in units ==> IsInert(u)
    ensures Opens(units, marked, open)
    decreases |units|
  {
    if |units| > 0 {
      assert IsInert(units[0]);
      InertOpens(units[1..], marked, open);
    }
  }

  /** Units without folders and messages may follow. */
  lemma {:induction false} OpensThenInert(units: seq<Unit>, tail: seq<Unit>, marked: set<string>, open: set<string>)
    requires Opens(units, marked, open) && forall u :: u in tail ==> IsInert(u)
    ensures Opens(units + tail, marked, open)
    decreases |units|
  {
    if |units| == 0 {
      assert units + tail == tail;
      InertOpens(tail, marked, open);
    } else {
      assert (units + tail)[0] == units[0] && (units + tail)[1..] == units[1..] + tail;
      match units[0]
      case FolderUnit(id, _, path, _) => OpensThenInert(units[1..], tail, marked + {id}, open + {path});
      case _ => OpensThenInert(units[1..], tail, marked, open);
    }
  }

  lemma {:induction false} EntriesOpen(path: string, entries: seq<Entry>, tail: seq<Unit>, marked: set<string>,
                                       open: set<string>)
    requires path in open && Opens(tail, marked, open)
    ensures Opens(EntryUnits(Mail, path, entries) + tail, marked, open)
  {
    if |entries| == 0 {
      assert EntryUnits(Mail, path, entries) + tail == tail;
    } else {
      EntriesOpen(path, entries[1..], tail, marked, open);
      EntryStep(Mail, path, entries, 0, tail);
      assert entries[0..] == entries;
    }
  }

  lemma FaultOpens(raises: bool, tail: seq<Unit>, marked: set<string>, open: set<string>)
    requires Opens(tail, marked, open)
    ensures Opens(FaultIf(raises) + tail, marked, open)
  {
    assert [] + tail == tail;
    assert ([Fault] + tail)[1..] == tail;
  }

  lemma MessagesOpen(path: string, listing: Listing, tail: seq<Unit>, marked: set<string>, open: set<string>)
    requires path in open && Opens(tail, marked, open)
    ensures Opens(ListingUnits(Mail, path, listing) + tail, marked, open)
  {
    hide EntryUnits, Opens, FaultIf;
    var rest := FaultIf(listing.raises) + tail;
    FaultOpens(listing.raises, tail, marked, open);
    EntriesOpen(path, listing.entries, rest, marked, open);
    assert ListingUnits(Mail, path, listing) + tail == EntryUnits(Mail, path, listing.entries) + rest;
  }

  /** The condition as it stands while the folders are walked. */
  ghost predicate Walk(folders: seq<Folder>, paths: map<string, string>, marked: set<string>, open: set<string>)
    requires forall f :: f in folders ==> f.id in paths
  {
    forall i :: 0 <= i < |folders| && folders[i].id in marked && paths[folders[i].id] !in open
      ==> exists j :: 0 <= j < i && folders[j].id !in marked && paths[folders[j].id] == paths[folders[i].id]
  }

  lemma WalkStep(folders: seq<Folder>, paths: map<string, string>, marked: set<string>, open: set<string>)
    requires |folders| > 0 && (forall f :: f in folders ==> f.id in paths) && Walk(folders, paths, marked, open)
    ensures folders[0].id in marked ==> paths[folders[0].id] in open
    ensures Walk(folders[1..], paths, marked + {folders[0].id}, open + {paths[folders[0].id]})
  {
    var rest, id := folders[1..], folders[0].id;
    forall i | 0 <= i < |rest| && rest[i].id in marked + {id} && paths[rest[i].id] !in open + {paths[id]}
      ensures exists j :: 0 <= j < i && rest[j].id !in marked + {id} && paths[rest[j].id] == paths[rest[i].id]
    {
      assert folders[i + 1] == rest[i] && rest[i].id != id;
      var j :| 0 <= j < i + 1 && folders[j].id !in marked && paths[folders[j].id] == paths[folders[i + 1].id];
      assert j > 0 && rest[j - 1] == folders[j];
    }
  }

  lemma {:induction false} FoldersOpen(folders: seq<Folder>, graphPaths: map<string, string>,
                                       paths: map<string, string>,
                                       world: Surroundings, since: Option<int>, marked: set<string>, open: set<string>)
    requires forall f :: f in folders ==> f.id in graphPaths && f.id in paths
    requires Walk(folders, paths, marked, open)
    ensures Opens(FolderUnits(folders, graphPaths, paths, world, since), marked, open)
  {
    hide Walk, ListingUnits;
    if |folders| > 0 {
      var id := folders[0].id;
      var tail := FolderUnits(folders[1..], graphPaths, paths, world, since);
      WalkStep(folders, paths, marked, open);
      FoldersOpen(folders[1..], graphPaths, paths, world, since, marked + {id}, open + {paths[id]});
      MessagesOpen(paths[id], world.messages(id, since), tail, marked + {id}, open + {paths[id]});
      var first := FolderUnit(id, graphPaths[id], paths[id], world.folderScript(id));
      var rest := ListingUnits(Mail, paths[id], world.messages(id, since)) + tail;
      assert ([first] + rest)[1..] == rest;
    }
  }

  /** What the units rely on: every mark is known and every open path has its mailbox. */
  ghost predicate Backed(s: Mailbox, marked: set<string>, open: set<string>) {
    open <= s.imapFolders && forall id :: IsMarked(s, id) ==> id in marked
  }

  lemma FolderLands(s: Mailbox, unit: Unit, marked: set<string>, open: set<string>)
    requires unit.FolderUnit? && Backed(s, marked, open) && (unit.id in marked ==> unit.path in open)
    ensures var block := UnitBlock(s, false, unit);
            Lands(s, block.events)
            && (!block.raised ==> Backed(Replay(s, block.events), marked + {unit.id}, open + {unit.path}))
  {
    hide Replay;
    var id, path := unit.id, unit.path;
    var block := UnitBlock(s, false, unit);
    NoAppendsLand(s, block.events);
    var inserted, made, marking := FolderInserted(id, unit.graphPath, path), FolderEnsured(id, path), FolderMarked(id);
    ReplayQuiet(s);
    if !block.raised && id !in s.folders {
      assert block.events == [inserted, made, marking];
      ReplayThree(s, inserted, made, marking);
    } else if !block.raised && !s.folders[id].created {
      assert block.events == [made, marking] == [] + [made] + [marking];
      ReplayOne(s, [], made);
      ReplayOne(s, [] + [made], marking);
    }
  }

  lemma ItemLands(s: Mailbox, dryRun: bool, item: Item, script: Script)
    requires item.Message? && !dryRun ==> item.path in s.imapFolders
    ensures var events := ItemBlock(s, dryRun, item, script).events;
            Lands(s, events) && Replay(s, events).imapFolders == s.imapFolders && Replay(s, events).folders == s.folders
  {
    hide Lands, Replay;
    TriesEvents(script.attempts, item.Effect(), RowDone(item.ItemKey(), item.Stamp()));
    ItemEventsLand(s, ItemBlock(s, dryRun, item, script).events);
  }

  predicate IsItemEvent(e: Event) {
    e.Appended? || e.Stored? || e.RowDone? || e.RowFailed? || e.Counted?
  }

  lemma {:induction false} ItemEventsLand(s: Mailbox, events: seq<Event>)
    requires forall e :: e in events ==> IsItemEvent(e) && (e.Appended? ==> e.path in s.imapFolders)
    ensures Lands(s, events) && Replay(s, events).imapFolders == s.imapFolders && Replay(s, events).folders == s.folders
    decreases |events|
  {
    if |events| == 0 {
      ReplayQuiet(s);
    } else {
      assert IsItemEvent(events[0]);
      ItemEventsLand(Apply(s, events[0]), events[1..]);
      ReplayFront(s, events);
    }
  }

  lemma DryFolderLands(s: Mailbox, unit: Unit)
    requires unit.FolderUnit?
    ensures Lands(s, UnitBlock(s, true, unit).events)
  {
    NoAppendsLand(s, UnitBlock(s, true, unit).events);
  }

  lemma {:induction false} UnitsLand(s: Mailbox, dryRun: bool, units: seq<Unit>, marked: set<string>, open: set<string>,
                                     clock: nat, cancelAt: Option<nat>)
    requires dryRun || (Opens(units, marked, open) && Backed(s, marked, open))
    ensures Lands(s, RunUnits(s, dryRun, units, clock, cancelAt).events)
    decreases |units|
  {
    hide UnitBlock, Replay, Lands, Backed;
    QuietLands(s);
    if |units| > 0 && !units[0].Fault? && !CancelledBy(cancelAt, clock) {
      var unit, block := units[0], UnitBlock(s, dryRun, units[0]);
      var events := [Checked(false)] + block.events;
      ReplayQuiet(s);
      ReplayConcat(s, [Checked(false)], block.events);
      UnitLands(s, dryRun, unit, marked, open);
      LandsConcat(s, [Checked(false)], block.events);
      if !block.raised {
        var next, later := Replay(s, events), clock + |events|;
        if unit.FolderUnit? {
          UnitsLand(next, dryRun, units[1..], marked + {unit.id}, open + {unit.path}, later, cancelAt);
        } else {
          UnitsLand(next, dryRun, units[1..], marked, open, later, cancelAt);
        }
        LandsConcat(s, events, RunUnits(next, dryRun, units[1..], later, cancelAt).events);
      }
    }
  }

  lemma QuietLands(s: Mailbox)
    ensures Lands(s, []) && Lands(s, [Checked(true)]) && Lands(s, [Checked(false)]) && Lands(s, [RunEnded])
    ensures forall at :: Lands(s, [WatermarkSet(at)])
  {
    assert [Checked(true)][1..] == [] && [Checked(false)][1..] == [] && [RunEnded][1..] == [];
    assert forall at :: [WatermarkSet(at)][1..] == [];
  }

  lemma UnitLands(s: Mailbox, dryRun: bool, unit: Unit, marked: set<string>, open: set<string>)
    requires !unit.Fault? && (dryRun || (Opens([unit], marked, open) && Backed(s, marked, open)))
    ensures var block := UnitBlock(s, dryRun, unit);
            Lands(s, block.events)
            && (!dryRun && !block.raised ==>
                  if unit.FolderUnit? then Backed(Replay(s, block.events), marked + {unit.id}, open + {unit.path})
                  else Backed(Replay(s, block.events), marked, open))
  {
    hide Lands, Replay, ItemBlock, FolderBlock;
    match unit {
      case FolderUnit(_, _, _, _) =>
        if dryRun {
          DryFolderLands(s, unit);
        } else {
          FolderLands(s, unit, marked, open);
        }
      case ItemUnit(item, script) => ItemLands(s, dryRun, item, script);
    }
  }

  function MarkedIds(s: Mailbox): set<string> {
    set id | id in s.folders && s.folders[id].created
  }

  lemma EntriesInert(category: Category, entries: seq<Entry>)
    requires category != Mail
    ensures forall u :: u in EntryUnits(category, "", entries) ==> IsInert(u)
  {
  }

  lemma ListingInert(category: Category, listing: Listing)
    requires category != Mail
    ensures forall u :: u in ListingUnits(category, "", listing) ==> IsInert(u)
  {
    EntriesInert(category, listing.entries);
  }

  lemma {:induction false} CalendarsInert(calendars: seq<string>, world: Surroundings, since: Option<int>)
    ensures forall u :: u in CalendarUnits(calendars, world, since) ==> IsInert(u)
  {
    hide ListingUnits, IsInert;
    if |calendars| > 0 {
      ListingInert(Calendar, world.events(calendars[0], since));
      CalendarsInert(calendars[1..], world, since);
    }
  }

  lemma ObjectsInert(options: Options, world: Surroundings, since: Option<int>)
    ensures forall u :: u in ObjectUnits(options, world, since) ==> IsInert(u)
  {
    hide ListingUnits, CalendarUnits;
    ListingInert(Contacts, world.contacts(since));
    if world.calendars.Some? {
      CalendarsInert(world.calendars.value, world, since);
    }
  }

  /** The run sees this folder tree and this delimiter. */
  ghost predicate Sees(run: JobRun, folders: seq<Folder>, delimiter: char) {
    run.world.delimiter == delimiter && (run.world.folders.Some? ==> run.world.folders.value == folders)
  }

  lemma JobOpens(s: Mailbox, run: JobRun, folders: seq<Folder>)
    requires WellFormed(run.world) && Acyclic(ById(folders)) && Sees(run, folders, run.world.delimiter)
    requires MarksOpen(s, folders, PathMap(folders, ImapNaming(run.world.delimiter)))
    ensures Opens(JobUnits(s, run.options, run.world, run.mailSinceDate), MarkedIds(s), s.imapFolders)
  {
    hide FolderUnits, ObjectUnits, PlainPath, IsInert, Opens;
    var world, marked, open := run.world, MarkedIds(s), s.imapFolders;
    var modifiedSince := ModifiedSince(run.options, s.watermark);
    var since := MailSince(run.mailSinceDate, modifiedSince);
    var objects, close := ObjectUnits(run.options, world, modifiedSince), FaultIf(world.closeRaises);
    FaultInert();
    ObjectsInert(run.options, world, modifiedSince);
    InertOpens([Fault], marked, open);
    InertOpens(objects, marked, open);
    assert [] + objects == objects;
    if Connects(world) && world.folders.Some? {
      var paths := PathMap(folders, ImapNaming(world.delimiter));
      FoldersOpen(folders, PathMap(folders, GraphNaming), paths, world, since, marked, open);
    }
    OpensThenInert(MailUnits(world, since), close, marked, open);
    OpensThenInert(MailUnits(world, since) + close, objects, marked, open);
  }

  lemma FaultInert()
    ensures IsInert(Fault)
  {
  }

  lemma RunLands(s: Mailbox, run: JobRun, folders: seq<Folder>, delimiter: char)
    requires WellFormed(run.world) && Acyclic(ById(folders)) && Sees(run, folders, delimiter)
    requires MarksOpen(s, folders, PathMap(folders, ImapNaming(delimiter)))
    ensures Lands(s, RunEvents(s, run))
  {
    hide RunUnits, JobUnits, JobTrace, Lands, PathMap, MarksOpen, Opens;
    var events := JobTrace(s, [], run.options, run.world, run.mailSinceDate, run.cancelAt).events;
    var whole := WholeLog(s, run);
    QuietLands(s);
    JobOpens(s, run, folders);
    JobAsOneRun(s, run.options, run.world, run.mailSinceDate, run.cancelAt);
    UnitsLand(s, run.options.dryRun, JobUnits(s, run.options, run.world, run.mailSinceDate), MarkedIds(s),
              s.imapFolders, 0, run.cancelAt);
    QuietLands(Replay(s, events));
    LandsConcat(s, events, [WatermarkSet(run.startedAt)]);
    assert events + [] == events;
    if run.cut < |whole| {
      LandsConcat(s, whole[..run.cut], whole[run.cut..]);
      assert whole == whole[..run.cut] + whole[run.cut..];
    }
    QuietLands(Replay(s, Cut(whole, run.cut)));
    LandsConcat(s, Cut(whole, run.cut), [RunEnded]);
  }

  // ---- without it some append does not --------------------------------------

  /** The first folder, in listing order, that is marked and has no mailbox under its path. */
  lemma FirstStranded(s: Mailbox, folders: seq<Folder>, paths: map<string, string>) returns (k: nat)
    requires (forall f :: f in folders ==> f.id in paths) && !MarksOpen(s, folders, paths)
    ensures Stranded(s, folders, paths, k)
  {
    var i :| 0 <= i < |folders| && IsMarked(s, folders[i].id) && paths[folders[i].id] !in s.imapFolders
      && forall j :: 0 <= j < i ==> IsMarked(s, folders[j].id) || paths[folders[j].id] != paths[folders[i].id];
    k := FirstOfPath(folders, paths, i);
  }

  ghost predicate Stranded(s: Mailbox, folders: seq<Folder>, paths: map<string, string>, k: nat)
    requires forall f :: f in folders ==> f.id in paths
  {
    && k < |folders| && IsMarked(s, folders[k].id) && paths[folders[k].id] !in s.imapFolders
    && forall j :: 0 <= j < k ==> paths[folders[j].id] != paths[folders[k].id]
  }

  lemma FirstOfPath(folders: seq<Folder>, paths: map<string, string>, i: nat) returns (k: nat)
    requires i < |folders| && forall f :: f in folders ==> f.id in paths
    ensures k <= i && paths[folders[k].id] == paths[folders[i].id]
    ensures forall j :: 0 <= j < k ==> paths[folders[j].id] != paths[folders[i].id]
    decreases i
  {
    k := i;
    if j :| 0 <= j < i && paths[folders[j].id] == paths[folders[i].id] {
      k := FirstOfPath(folders, paths, j);
    }
  }

  const SMOOTH := Script([Succeeds, Succeeds, Succeeds], true, [true, true, true])

  /** Nothing else raises, and the only item is one message in one folder. */
  function OneMessage(folders: seq<Folder>, delimiter: char, folder: string, message: string, script: Script)
    : Surroundings
  {
    QuietWorld(folders, delimiter).(messages := (id: string, since: Option<int>) =>
      if id == folder then Listing([Entry(message, 0, script)], false) else NOTHING)
  }

  const MAIL_ONLY := Options(INITIAL, true, false, false, false)

  /** The folder before the stranded one does not open its path. */
  lemma FolderPasses(s: Mailbox, unit: Unit, clock: nat)
    requires unit.FolderUnit? && unit.folderScript == FolderScript(true, Succeeds)
    ensures var block := UnitBlock(s, false, unit);
            var end := Replay(s, [Checked(false)] + block.events);
            && !block.raised && end.items == s.items && end.imapFolders <= s.imapFolders + {unit.path}
            && (forall id :: IsMarked(s, id) ==> IsMarked(end, id))
  {
    hide Replay;
    var id, path := unit.id, unit.path;
    var block := UnitBlock(s, false, unit);
    var inserted, made, marking := FolderInserted(id, unit.graphPath, path), FolderEnsured(id, path), FolderMarked(id);
    ReplayQuiet(s);
    ReplayConcat(s, [Checked(false)], block.events);
    if id !in s.folders {
      assert block.events == [inserted, made, marking];
      ReplayThree(s, inserted, made, marking);
    } else if !s.folders[id].created {
      assert block.events == [made, marking] == [] + [made] + [marking];
      ReplayOne(s, [], made);
      ReplayOne(s, [] + [made], marking);
    }
  }

  /** A stranded folder's message goes to a mailbox that is not there. */
  lemma MessageStrands(s: Mailbox, id: string, graphPath: string, path: string, message: string, tail: seq<Unit>,
                       clock: nat)
    requires IsMarked(s, id) && path !in s.imapFolders && Key(Mail, message) !in s.items
    ensures var units := [FolderUnit(id, graphPath, path, FolderScript(true, Succeeds)),
                          ItemUnit(Message(message, path), SMOOTH)] + tail;
            !Lands(s, RunUnits(s, false, units, clock, None).events)
  {
    hide Replay, Lands;
    var folder := FolderUnit(id, graphPath, path, FolderScript(true, Succeeds));
    var item := ItemUnit(Message(message, path), SMOOTH);
    var units := [folder, item] + tail;
    var check, append := [Checked(false)], Appended(path, message);
    assert UnitBlock(s, false, folder) == Block([], false);
    assert check + [] == check;
    ReplayQuiet(s);
    var block := UnitBlock(s, false, item);
    assert Tries(SMOOTH.attempts, append, RowDone(Key(Mail, message), None)).events[0] == append;
    assert !block.raised && |block.events| > 0 && block.events[0] == append;
    assert units[0] == folder && units[1..][0] == item;
    var rest := RunUnits(s, false, units[1..], clock + 1, None).events;
    assert RunUnits(s, false, units, clock, None).events == check + rest;
    assert rest[0] == Checked(false) && rest[1] == append;
    NotLanding(s, rest, append);
    LandsConcat(s, check, rest);
  }

  lemma NotLanding(s: Mailbox, events: seq<Event>, append: Event)
    requires |events| > 1 && events[0] == Checked(false) && events[1] == append
    requires append.Appended? && append.path !in s.imapFolders
    ensures !Lands(s, events)
  {
    assert events[1..][0] == append;
  }

  lemma {:induction false} FoldersStrand(s: Mailbox, folders: seq<Folder>, graphPaths: map<string, string>,
                                         paths: map<string, string>, world: Surroundings, since: Option<int>,
                                         tree: seq<Folder>, message: string, k: nat, clock: nat)
    requires forall f :: f in folders ==> f.id in graphPaths && f.id in paths
    requires Stranded(s, folders, paths, k) && Key(Mail, message) !in s.items
    requires world == OneMessage(tree, world.delimiter, folders[k].id, message, SMOOTH)
    ensures !Lands(s, RunUnits(s, false, FolderUnits(folders, graphPaths, paths, world, since), clock, None).events)
    decreases k
  {
    hide Replay, Lands, UnitBlock, FolderUnits, RunUnits, OneMessage;
    var id := folders[0].id;
    var first := FolderUnit(id, graphPaths[id], paths[id], FolderScript(true, Succeeds));
    var tail := FolderUnits(folders[1..], graphPaths, paths, world, since);
    OneMessageStep(folders, graphPaths, paths, world, since, tree, folders[k].id, message, SMOOTH);
    if k == 0 {
      MessageStrands(s, id, graphPaths[id], paths[id], message, tail, clock);
    } else {
      var events := [Checked(false)] + UnitBlock(s, false, first).events;
      var next, later := Replay(s, events), clock + |events|;
      FolderPasses(s, first, clock);
      assert folders[1..][k - 1] == folders[k];
      assert forall j :: 0 <= j < k - 1 ==> folders[1..][j] == folders[j + 1];
      FoldersStrand(next, folders[1..], graphPaths, paths, world, since, tree, message, k - 1, later);
      RunUnitsStep(s, false, first, tail, clock, None);
      LandsConcat(s, events, RunUnits(next, false, tail, later, None).events);
    }
  }

  /** The units of the first folder: itself and, if it is the one, its message. */
  lemma OneMessageStep(folders: seq<Folder>, graphPaths: map<string, string>, paths: map<string, string>,
                       world: Surroundings, since: Option<int>, tree: seq<Folder>, folder: string, message: string,
                       script: Script)
    requires |folders| > 0 && forall f :: f in folders ==> f.id in graphPaths && f.id in paths
    requires world == OneMessage(tree, world.delimiter, folder, message, script)
    ensures var id := folders[0].id;
            var first := FolderUnit(id, graphPaths[id], paths[id], FolderScript(true, Succeeds));
            var tail := FolderUnits(folders[1..], graphPaths, paths, world, since);
            FolderUnits(folders, graphPaths, paths, world, since)
            == if id == folder then [first, ItemUnit(Message(message, paths[id]), script)] + tail else [first] + tail
  {
    hide ListingUnits;
    var path := paths[folders[0].id];
    OneEntry(path, message, script);
  }

  lemma OneEntry(path: string, message: string, script: Script)
    ensures ListingUnits(Mail, path, NOTHING) == []
    ensures ListingUnits(Mail, path, Listing([Entry(message, 0, script)], false))
            == [ItemUnit(Message(message, path), script)]
  {
    var entries, unit := [Entry(message, 0, script)], ItemUnit(Message(message, path), script);
    assert entries[1..] == [] && EntryUnits(Mail, path, []) == [];
    assert EntryUnits(Mail, path, entries) == [unit] + [];
  }

  /** Some message has no row yet. */
  lemma FreshMessage(keys: set<Key>) returns (message: string)
    ensures Key(Mail, message) !in keys
  {
    var n := Longer(keys);
    message := seq(n, _ => 'm');
  }

  lemma {:induction false} Longer(keys: set<Key>) returns (n: nat)
    ensures forall key :: key in keys ==> |key.externalId| < n
    decreases keys
  {
    n := 0;
    if keys != {} {
      var key :| key in keys;
      n := Longer(keys - {key});
      n := if n <= |key.externalId| then |key.externalId| + 1 else n;
    }
  }

  /** The units of a job over one message are those of its folders. */
  lemma OneMessageUnits(s: Mailbox, folders: seq<Folder>, world: Surroundings, folder: string, message: string,
                        script: Script)
    requires Acyclic(ById(folders)) && world == OneMessage(folders, world.delimiter, folder, message, script)
    ensures JobUnits(s, MAIL_ONLY, world, None)
            == FolderUnits(folders, PathMap(folders, GraphNaming), PathMap(folders, ImapNaming(world.delimiter)), world,
                           None)
  {
    hide PlainPath, FolderUnits;
    var units := FolderUnits(folders, PathMap(folders, GraphNaming), PathMap(folders, ImapNaming(world.delimiter)),
                             world, None);
    assert MailUnits(world, None) == units;
    assert units + [] + ([] + []) == units;
  }

  /** Folders and one message of the stranded one, as the units of a job. */
  lemma JobStrands(s: Mailbox, folders: seq<Folder>, delimiter: char) returns (world: Surroundings)
    requires Acyclic(ById(folders)) && !MarksOpen(s, folders, PathMap(folders, ImapNaming(delimiter)))
    ensures world.calls.started && world.calls.refreshed && world.delimiter == delimiter
            && world.folders == Some(folders)
    ensures !Lands(s, RunUnits(s, false, JobUnits(s, MAIL_ONLY, world, None), 0, None).events)
  {
    hide MarksOpen, PlainPath, FolderUnits, RunUnits, Lands, Replay, JobUnits;
    var paths, graphPaths := PathMap(folders, ImapNaming(delimiter)), PathMap(folders, GraphNaming);
    var k := FirstStranded(s, folders, paths);
    var message := FreshMessage(s.items.Keys);
    world := OneMessage(folders, delimiter, folders[k].id, message, SMOOTH);
    FoldersStrand(s, folders, graphPaths, paths, world, None, folders, message, k, 0);
    OneMessageUnits(s, folders, world, folders[k].id, message, SMOOTH);
  }

  /** A run in which an APPEND asks for a mailbox that does not exist and takes effect. */
  lemma SomeRunStrands(s: Mailbox, folders: seq<Folder>, delimiter: char) returns (run: JobRun)
    requires Acyclic(ById(folders)) && !MarksOpen(s, folders, PathMap(folders, ImapNaming(delimiter)))
    ensures WellFormed(run.world) && Sees(run, folders, delimiter) && run.world.folders.Some?
    ensures !Lands(s, RunEvents(s, run))
  {
    hide MarksOpen, PlainPath, RunUnits, JobUnits, JobTrace, Lands;
    var world := JobStrands(s, folders, delimiter);
    JobAsOneRun(s, MAIL_ONLY, world, None, None);
    var events := JobTrace(s, [], MAIL_ONLY, world, None, None).events;
    run := JobRun(MAIL_ONLY, world, None, None, 0, |events| + 1);
    var whole := WholeLog(s, run);
    assert whole == events + whole[|events|..];
    LandsConcat(s, events, whole[|events|..]);
    LandsConcat(s, whole, [RunEnded]);
  }

  /**
   Every run over a folder tree, whatever raises and wherever it is cut off, finds the mailbox of each
   message it appends, if and only if the rows it starts from and the paths of the tree are in order.
   */
  lemma AppendsLandExactly(s: Mailbox, folders: seq<Folder>, delimiter: char)
    requires Acyclic(ById(folders))
    ensures (forall run: JobRun :: WellFormed(run.world) && Sees(run, folders, delimiter) ==>
              Lands(s, RunEvents(s, run)))
            <==> MarksOpen(s, folders, PathMap(folders, ImapNaming(delimiter)))
  {
    hide MarksOpen, Lands, PlainPath, RunEvents;
    if MarksOpen(s, folders, PathMap(folders, ImapNaming(delimiter))) {
      forall run: JobRun | WellFormed(run.world) && Sees(run, folders, delimiter) ensures Lands(s, RunEvents(s, run)) {
        RunLands(s, run, folders, delimiter);
      }
    } else {
      var run := SomeRunStrands(s, folders, delimiter);
    }
  }
}
