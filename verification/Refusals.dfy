/**
 A server refuses an APPEND to a mailbox that does not exist (section 6.3.11 of RFC 3501). Exactly when do
 all messages of a run arrive in which nothing goes wrong but that?
 */
module Refusals {
  import opened Wrappers
  import opened Text
  import opened FolderMapping
  import opened ImportModel
  import opened Runner
  import opened Histories
  import opened ImportSafety
  import opened Outcomes
  import opened DryRuns
  import opened RenamedFolders

  const REFUSED := Script([NoEffect, NoEffect, NoEffect], true, [true, true, true])

  // ---- runs in which only refusals go wrong ---------------------------------

  predicate IsRefused(script: Script) {
    script.attempts == [NoEffect, NoEffect, NoEffect] && script.failureRecorded && script.commits[0]
  }

  /** A message for a missing mailbox is refused; nothing else fails. */
  predicate Answered(s: Mailbox, unit: Unit) {
    if unit.ItemUnit? && unit.item.Message? && unit.item.path !in s.imapFolders then IsRefused(unit.script)
    else Smooth(unit)
  }

  function AfterUnit(s: Mailbox, unit: Unit): Mailbox {
    Replay(s, [Checked(false)] + UnitBlock(s, false, unit).events)
  }

  ghost predicate Obeys(s: Mailbox, units: seq<Unit>)
    decreases |units|
  {
    |units| == 0 || (Answered(s, units[0]) && Obeys(AfterUnit(s, units[0]), units[1..]))
  }

  /** A real run that no cancel meets and in which only refusals go wrong. */
  ghost predicate Faultless(s: Mailbox, run: JobRun)
    requires WellFormed(run.world)
  {
    !run.options.dryRun && run.cancelAt == None && Obeys(s, UnitsOf(s, run))
  }

  /** Every message the run lists is done when its passes have ended. */
  ghost predicate AllArrive(s: Mailbox, run: JobRun)
    requires WellFormed(run.world)
  {
    forall u :: u in UnitsOf(s, run) && u.ItemUnit? && u.item.Message?
      ==> IsDone(Replay(s, TraceOf(s, run).events), u.item.ItemKey())
  }

  lemma RefusedBlock(s: Mailbox, item: Item, script: Script)
    requires item.Message? && IsRefused(script)
    ensures var key := item.ItemKey();
            ItemBlock(s, false, item, script)
            == if NeedsImport(Row(s, key), None) then Block([RowFailed(key), Counted(key, Failures)], false)
               else Block([Counted(key, Skipped)], false)
  {
    NoEffectTries(script.attempts, item.Effect(), RowDone(item.ItemKey(), None));
    assert [] + [RowFailed(item.ItemKey())] + [Counted(item.ItemKey(), Failures)]
        == [RowFailed(item.ItemKey()), Counted(item.ItemKey(), Failures)];
  }

  lemma {:induction false} NoEffectTries(attempts: seq<Attempt>, effect: Event, done: Event)
    requires forall i :: 0 <= i < |attempts| ==> attempts[i] == NoEffect
    ensures Tries(attempts, effect, done) == Block([], true)
    decreases |attempts|
  {
    if |attempts| > 0 {
      NoEffectTries(attempts[1..], effect, done);
    }
  }

  /** A unit that is answered does not raise. */
  lemma AnsweredRuns(s: Mailbox, unit: Unit)
    requires Answered(s, unit)
    ensures !unit.Fault? && !UnitBlock(s, false, unit).raised
  {
    hide ItemBlock, FolderBlock;
    if unit.ItemUnit? && IsRefused(unit.script) && unit.item.Message? {
      RefusedBlock(s, unit.item, unit.script);
    } else {
      SmoothIsNoFault(unit);
      SmoothUnit(s, false, unit);
    }
  }

  lemma {:induction false} ObeysFinishes(s: Mailbox, units: seq<Unit>, clock: nat)
    requires Obeys(s, units)
    ensures RunUnits(s, false, units, clock, None).exit == Finished
    decreases |units|
  {
    hide UnitBlock, Replay, Answered;
    if |units| > 0 {
      AnsweredRuns(s, units[0]);
      var events := [Checked(false)] + UnitBlock(s, false, units[0]).events;
      ObeysFinishes(Replay(s, events), units[1..], clock + |events|);
    }
  }

  lemma AnsweredLands(s: Mailbox, unit: Unit)
    requires Answered(s, unit)
    ensures Lands(s, UnitBlock(s, false, unit).events)
  {
    hide Lands, ItemBlock, FolderBlock;
    if unit.FolderUnit? {
      FolderNoAppends(s, unit);
      NoAppendsLand(s, UnitBlock(s, false, unit).events);
    } else if unit.item.Message? && unit.item.path !in s.imapFolders {
      RefusedBlock(s, unit.item, unit.script);
      NoAppendsLand(s, UnitBlock(s, false, unit).events);
    } else {
      ItemLands(s, false, unit.item, unit.script);
    }
  }

  lemma FolderNoAppends(s: Mailbox, unit: Unit)
    requires unit.FolderUnit?
    ensures forall e :: e in UnitBlock(s, false, unit).events ==> !e.Appended?
  {
  }

  /** No append takes effect on a missing mailbox. */
  lemma {:induction false} ObeysLands(s: Mailbox, units: seq<Unit>, clock: nat)
    requires Obeys(s, units)
    ensures Lands(s, RunUnits(s, false, units, clock, None).events)
    decreases |units|
  {
    hide UnitBlock, Replay, Answered, Lands;
    QuietLands(s);
    if |units| > 0 {
      var block := UnitBlock(s, false, units[0]).events;
      var events := [Checked(false)] + block;
      AnsweredRuns(s, units[0]);
      AnsweredLands(s, units[0]);
      ReplayQuiet(s);
      LandsConcat(s, [Checked(false)], block);
      ObeysLands(Replay(s, events), units[1..], clock + |events|);
      LandsConcat(s, events, RunUnits(Replay(s, events), false, units[1..], clock + |events|, None).events);
    }
  }

  // ---- with the condition every message arrives -----------------------------

  /** A message that is not refused is done. */
  lemma MessageArrives(s: Mailbox, unit: Unit)
    requires unit.ItemUnit? && unit.item.Message? && Smooth(unit)
    ensures IsDone(AfterUnit(s, unit), unit.item.ItemKey())
  {
    hide Replay, ItemBlock;
    SmoothBlock(s, false, unit.item, unit.script);
    SmoothReplay(s, false, unit.item);
    ReplayQuiet(s);
    ReplayConcat(s, [Checked(false)], UnitBlock(s, false, unit).events);
  }

  lemma StaysDone(s: Mailbox, units: seq<Unit>, clock: nat, key: Key)
    requires key.category == Mail && IsDone(s, key)
    ensures IsDone(Replay(s, RunUnits(s, false, units, clock, None).events), key)
  {
    hide Replay, RunUnits, LegalFrom;
    RunUnitsLegal(s, false, units, clock, None);
    DoneStays(s, None, RunUnits(s, false, units, clock, None).events, key.externalId);
  }

  lemma UnitBacks(s: Mailbox, unit: Unit, marked: set<string>, open: set<string>)
    requires Answered(s, unit) && Opens([unit], marked, open) && Backed(s, marked, open)
    ensures if unit.FolderUnit? then Backed(AfterUnit(s, unit), marked + {unit.id}, open + {unit.path})
            else Backed(AfterUnit(s, unit), marked, open)
  {
    hide Replay, UnitBlock, Answered, Opens, Backed;
    AnsweredRuns(s, unit);
    UnitLands(s, false, unit, marked, open);
    ReplayQuiet(s);
    ReplayConcat(s, [Checked(false)], UnitBlock(s, false, unit).events);
  }

  lemma {:induction false} Delivered(s: Mailbox, units: seq<Unit>, marked: set<string>, open: set<string>, clock: nat,
                                     u: Unit)
    requires Opens(units, marked, open) && Backed(s, marked, open) && Obeys(s, units)
    requires u in units && u.ItemUnit? && u.item.Message?
    ensures IsDone(Replay(s, RunUnits(s, false, units, clock, None).events), u.item.ItemKey())
    decreases |units|
  {
    hide UnitBlock, Replay, Backed, IsDone;
    var unit, rest := units[0], units[1..];
    var events := [Checked(false)] + UnitBlock(s, false, unit).events;
    var next, later := Replay(s, events), clock + |events|;
    AnsweredRuns(s, unit);
    UnitBacks(s, unit, marked, open);
    assert units == [unit] + rest;
    RunUnitsStep(s, false, unit, rest, clock, None);
    ReplayConcat(s, events, RunUnits(next, false, rest, later, None).events);
    if u == unit {
      OpenIsThere(s, unit, marked, open);
      MessageArrives(s, unit);
      StaysDone(next, rest, later, u.item.ItemKey());
    } else if unit.FolderUnit? {
      Delivered(next, rest, marked + {unit.id}, open + {unit.path}, later, u);
    } else {
      Delivered(next, rest, marked, open, later, u);
    }
  }

  lemma OpenIsThere(s: Mailbox, unit: Unit, marked: set<string>, open: set<string>)
    requires Answered(s, unit) && Opens([unit], marked, open) && Backed(s, marked, open)
    requires unit.ItemUnit? && unit.item.Message?
    ensures Smooth(unit)
  {
  }

  lemma RunDelivers(s: Mailbox, run: JobRun, folders: seq<Folder>, delimiter: char)
    requires WellFormed(run.world) && Acyclic(ById(folders)) && Sees(run, folders, delimiter)
    requires MarksOpen(s, folders, PathMap(folders, ImapNaming(delimiter))) && Faultless(s, run)
    ensures AllArrive(s, run)
  {
    hide JobUnits, JobTrace, RunUnits, Replay, PlainPath, MarksOpen, Opens, Obeys, IsDone;
    JobOpens(s, run, folders);
    JobAsOneRun(s, run.options, run.world, run.mailSinceDate, None);
    forall u | u in UnitsOf(s, run) && u.ItemUnit? && u.item.Message?
      ensures IsDone(Replay(s, TraceOf(s, run).events), u.item.ItemKey())
    {
      Delivered(s, UnitsOf(s, run), MarkedIds(s), s.imapFolders, 0, u);
    }
  }

  // ---- without it some message fails ----------------------------------------

  predicate HasFailed(s: Mailbox, key: Key) {
    key in s.items && s.items[key].status == FAILED
  }

  lemma FolderIsSmooth(s: Mailbox, unit: Unit)
    requires unit.FolderUnit? && unit.folderScript == FolderScript(true, Succeeds)
    ensures Answered(s, unit) && AfterUnit(s, unit).items == s.items
  {
    hide Replay, UnitBlock;
    FolderPasses(s, unit, 0);
  }

  lemma MessageIsRefused(s: Mailbox, unit: Unit)
    requires unit.ItemUnit? && unit.item.Message? && unit.script == REFUSED
    requires unit.item.ItemKey() !in s.items && unit.item.path !in s.imapFolders
    ensures Answered(s, unit) && HasFailed(AfterUnit(s, unit), unit.item.ItemKey())
  {
    hide Replay, ItemBlock;
    var key := unit.item.ItemKey();
    var failed, count := RowFailed(key), Counted(key, Failures);
    RefusedBlock(s, unit.item, unit.script);
    assert [Checked(false)] + [failed, count] == [Checked(false), failed, count];
    ReplayThree(s, Checked(false), failed, count);
  }

  /** What the later units leave of the row. */
  ghost predicate Ends(s: Mailbox, units: seq<Unit>, key: Key) {
    Obeys(s, units) && forall clock: nat :: HasFailed(Replay(s, RunUnits(s, false, units, clock, None).events), key)
  }

  lemma EndsStep(s: Mailbox, unit: Unit, rest: seq<Unit>, key: Key)
    requires Answered(s, unit) && Ends(AfterUnit(s, unit), rest, key)
    ensures Ends(s, [unit] + rest, key)
  {
    hide UnitBlock, Replay, RunUnits, Answered, HasFailed;
    var units, next := [unit] + rest, AfterUnit(s, unit);
    var events := [Checked(false)] + UnitBlock(s, false, unit).events;
    assert units[0] == unit && units[1..] == rest;
    AnsweredRuns(s, unit);
    forall clock: nat ensures HasFailed(Replay(s, RunUnits(s, false, units, clock, None).events), key) {
      RunUnitsStep(s, false, unit, rest, clock, None);
      ReplayConcat(s, events, RunUnits(next, false, rest, clock + |events|, None).events);
    }
  }

  /** Folders without messages leave the row as it is. */
  lemma {:induction false} FoldersLeave(s: Mailbox, folders: seq<Folder>, graphPaths: map<string, string>,
                                        paths: map<string, string>, world: Surroundings, since: Option<int>,
                                        tree: seq<Folder>, folder: string, message: string, key: Key)
    requires forall f :: f in folders ==> f.id in graphPaths && f.id in paths && f.id != folder
    requires world == OneMessage(tree, world.delimiter, folder, message, REFUSED) && HasFailed(s, key)
    ensures Ends(s, FolderUnits(folders, graphPaths, paths, world, since), key)
    decreases |folders|
  {
    hide Ends, Replay, UnitBlock, FolderUnits, OneMessage, Answered;
    if |folders| == 0 {
      NoFolders(folders, graphPaths, paths, world, since);
      NothingLeft(s, FolderUnits(folders, graphPaths, paths, world, since), key);
    } else {
      var id := folders[0].id;
      var first := FolderUnit(id, graphPaths[id], paths[id], FolderScript(true, Succeeds));
      OneMessageStep(folders, graphPaths, paths, world, since, tree, folder, message, REFUSED);
      FolderIsSmooth(s, first);
      FoldersLeave(AfterUnit(s, first), folders[1..], graphPaths, paths, world, since, tree, folder, message, key);
      EndsStep(s, first, FolderUnits(folders[1..], graphPaths, paths, world, since), key);
    }
  }

  lemma NoFolders(folders: seq<Folder>, graphPaths: map<string, string>, paths: map<string, string>,
                  world: Surroundings, since: Option<int>)
    requires |folders| == 0
    ensures FolderUnits(folders, graphPaths, paths, world, since) == []
  {
  }

  lemma NothingLeft(s: Mailbox, units: seq<Unit>, key: Key)
    requires units == [] && HasFailed(s, key)
    ensures Ends(s, units, key)
  {
    ReplayQuiet(s);
  }

  /** The message of the first stranded folder is refused and ends failed. */
  lemma {:induction false} FoldersRefuse(s: Mailbox, folders: seq<Folder>, graphPaths: map<string, string>,
                                         paths: map<string, string>, world: Surroundings, since: Option<int>,
                                         tree: seq<Folder>, message: string, k: nat)
    requires forall f :: f in folders ==> f.id in graphPaths && f.id in paths
    requires UniqueIds(folders) && Stranded(s, folders, paths, k) && Key(Mail, message) !in s.items
    requires world == OneMessage(tree, world.delimiter, folders[k].id, message, REFUSED)
    ensures var units := FolderUnits(folders, graphPaths, paths, world, since);
            Ends(s, units, Key(Mail, message)) && ItemUnit(Message(message, paths[folders[k].id]), REFUSED) in units
    decreases k
  {
    hide Ends, Replay, UnitBlock, FolderUnits, OneMessage, Answered;
    var id, rest := folders[0].id, folders[1..];
    var first := FolderUnit(id, graphPaths[id], paths[id], FolderScript(true, Succeeds));
    var item := ItemUnit(Message(message, paths[id]), REFUSED);
    var tail := FolderUnits(rest, graphPaths, paths, world, since);
    OneMessageStep(folders, graphPaths, paths, world, since, tree, folders[k].id, message, REFUSED);
    FolderIsSmooth(s, first);
    var next := AfterUnit(s, first);
    if k == 0 {
      MarkedIsQuiet(s, first);
      MessageIsRefused(next, item);
      FoldersLeave(AfterUnit(next, item), rest, graphPaths, paths, world, since, tree, id, message, Key(Mail, message));
      EndsStep(next, item, tail, Key(Mail, message));
      EndsStep(s, first, [item] + tail, Key(Mail, message));
      assert [first, item] + tail == [first] + ([item] + tail);
    } else {
      FolderPasses(s, first, 0);
      assert rest[k - 1] == folders[k];
      assert forall j :: 0 <= j < k - 1 ==> rest[j] == folders[j + 1];
      FoldersRefuse(next, rest, graphPaths, paths, world, since, tree, message, k - 1);
      EndsStep(s, first, tail, Key(Mail, message));
    }
  }

  lemma MarkedIsQuiet(s: Mailbox, unit: Unit)
    requires unit.FolderUnit? && IsMarked(s, unit.id)
    ensures AfterUnit(s, unit) == s
  {
    ReplayQuiet(s);
    assert [Checked(false)] + [] == [Checked(false)];
  }

  /** A world of one message, refused in the first stranded folder. */
  lemma SomeMessageIsRefused(s: Mailbox, folders: seq<Folder>, delimiter: char)
    returns (world: Surroundings, refused: Unit)
    requires Acyclic(ById(folders)) && UniqueIds(folders)
    requires !MarksOpen(s, folders, PathMap(folders, ImapNaming(delimiter)))
    ensures world.calls == RowCalls(true, true, true, true, true)
    ensures world.delimiter == delimiter && world.folders == Some(folders)
    ensures refused.ItemUnit? && refused.item.Message? && refused in JobUnits(s, MAIL_ONLY, world, None)
    ensures Ends(s, JobUnits(s, MAIL_ONLY, world, None), refused.item.ItemKey())
  {
    hide MarksOpen, PlainPath, FolderUnits, JobUnits, Ends;
    var paths, graphPaths := PathMap(folders, ImapNaming(delimiter)), PathMap(folders, GraphNaming);
    var k := FirstStranded(s, folders, paths);
    var message := FreshMessage(s.items.Keys);
    world := OneMessage(folders, delimiter, folders[k].id, message, REFUSED);
    FoldersRefuse(s, folders, graphPaths, paths, world, None, folders, message, k);
    OneMessageUnits(s, folders, world, folders[k].id, message, REFUSED);
    refused := ItemUnit(Message(message, paths[folders[k].id]), REFUSED);
  }

  /** A faultless run in which a message is refused and ends failed. */
  lemma SomeRunRefuses(s: Mailbox, folders: seq<Folder>, delimiter: char) returns (run: JobRun, message: string)
    requires Acyclic(ById(folders)) && UniqueIds(folders)
    requires !MarksOpen(s, folders, PathMap(folders, ImapNaming(delimiter)))
    ensures WellFormed(run.world) && Sees(run, folders, delimiter) && run.world.folders.Some?
    ensures Faultless(s, run) && !AllArrive(s, run)
    ensures HasFailed(Replay(s, RunEvents(s, run)), Key(Mail, message))
  {
    hide MarksOpen, PathMap, RunUnits, JobTrace, JobUnits, Replay, Obeys;
    var world, refused := SomeMessageIsRefused(s, folders, delimiter);
    message := refused.item.id;
    JobAsOneRun(s, MAIL_ONLY, world, None, None);
    var events := JobTrace(s, [], MAIL_ONLY, world, None, None).events;
    run := JobRun(MAIL_ONLY, world, None, None, 0, |events| + 1);
    ObeysFinishes(s, UnitsOf(s, run), 0);
    assert HasFailed(Replay(s, TraceOf(s, run).events), Key(Mail, message));
    assert refused in UnitsOf(s, run);
    assert RunEvents(s, run) == events + [WatermarkSet(0)] + [RunEnded];
    ReplayOne(s, events, WatermarkSet(0));
    ReplayOne(s, events + [WatermarkSet(0)], RunEnded);
  }

  /**
   In every run over a folder tree in which nothing goes wrong but that a server refuses messages for
   missing mailboxes, every listed message arrives, if and only if the rows the run starts from and the
   paths of the tree are in order.
   */
  lemma MessagesArriveExactly(s: Mailbox, folders: seq<Folder>, delimiter: char)
    requires Acyclic(ById(folders)) && UniqueIds(folders)
    ensures (forall run: JobRun :: WellFormed(run.world) && Sees(run, folders, delimiter) && Faultless(s, run) ==>
              AllArrive(s, run))
            <==> MarksOpen(s, folders, PathMap(folders, ImapNaming(delimiter)))
  {
    hide MarksOpen, PlainPath, Faultless, AllArrive;
    if MarksOpen(s, folders, PathMap(folders, ImapNaming(delimiter))) {
      forall run: JobRun | WellFormed(run.world) && Sees(run, folders, delimiter) && Faultless(s, run)
        ensures AllArrive(s, run)
      {
        RunDelivers(s, run, folders, delimiter);
      }
    } else {
      var run, message := SomeRunRefuses(s, folders, delimiter);
    }
  }

  // ---- a renamed folder -----------------------------------------------------

  function OneFolder(name: string): seq<Folder> {
    [Folder("f", name, None, None, 0)]
  }

  lemma OneFolderPath(name: string)
    requires |name| == 1 && name[0] != '/'
    ensures Acyclic(ById(OneFolder(name)))
    ensures PathMap(OneFolder(name), ImapNaming('/')) == map["f" := name]
  {
    var byId := ById(OneFolder(name));
    assert OneFolder(name)[..0] == [];
    assert byId == map["f" := OneFolder(name)[0]];
    assert Ranked(byId, map["f" := 0]);
    assert name[1..] == [] && Replace(name, '/', '_') == [name[0]] + Replace([], '/', '_');
  }

  const EMPTY := Mailbox(map[], map[], Counters(0, 0, 0, 0), None, {}, multiset{}, map[])

  lemma FirstTrace(world: Surroundings)
    requires world == OneMessage(OneFolder("A"), '/', "g", "", SMOOTH)
    ensures WellFormed(world)
    ensures var t := JobTrace(EMPTY, [], MAIL_ONLY, world, None, None);
            var end := Replay(EMPTY, t.events);
            t.exit == Finished && IsMarked(end, "f") && end.imapFolders == {"A"}
  {
    hide PlainPath, RunUnits, JobTrace, FolderUnits, Replay, JobUnits;
    OneFolderPath("A");
    var folders := OneFolder("A");
    JobAsOneRun(EMPTY, MAIL_ONLY, world, None, None);
    OneMessageUnits(EMPTY, folders, world, "g", "", SMOOTH);
    var graphPath := PathMap(folders, GraphNaming)["f"];
    OneFolderUnits(folders, PathMap(folders, GraphNaming), PathMap(folders, ImapNaming('/')), world, graphPath);
    OneFolderRun(FolderUnit("f", graphPath, "A", FolderScript(true, Succeeds)));
  }

  /** The first run creates the mailbox "A" and marks the row. */
  lemma FirstRun() returns (run: JobRun)
    ensures WellFormed(run.world) && run.world.folders == Some(OneFolder("A")) && run.world.delimiter == '/'
    ensures var end := Replay(EMPTY, RunEvents(EMPTY, run)); IsMarked(end, "f") && end.imapFolders == {"A"}
  {
    hide RunUnits, JobTrace, Replay;
    var world := OneMessage(OneFolder("A"), '/', "g", "", SMOOTH);
    FirstTrace(world);
    var events := JobTrace(EMPTY, [], MAIL_ONLY, world, None, None).events;
    run := JobRun(MAIL_ONLY, world, None, None, 0, |events| + 1);
    assert RunEvents(EMPTY, run) == events + [WatermarkSet(0)] + [RunEnded];
    ReplayOne(EMPTY, events, WatermarkSet(0));
    ReplayOne(EMPTY, events + [WatermarkSet(0)], RunEnded);
  }

  lemma OneFolderUnits(folders: seq<Folder>, graphPaths: map<string, string>, paths: map<string, string>,
                       world: Surroundings, graphPath: string)
    requires folders == OneFolder("A") && world == OneMessage(folders, '/', "g", "", SMOOTH)
    requires "f" in graphPaths && "f" in paths && graphPaths["f"] == graphPath && paths["f"] == "A"
    ensures FolderUnits(folders, graphPaths, paths, world, None)
            == [FolderUnit("f", graphPath, "A", FolderScript(true, Succeeds))]
  {
    assert ListingUnits(Mail, "A", NOTHING) == [];
    assert folders[1..] == [];
  }

  lemma OneFolderRun(unit: Unit)
    requires unit.FolderUnit? && unit.id == "f" && unit.path == "A" && unit.folderScript == FolderScript(true, Succeeds)
    ensures var t := RunUnits(EMPTY, false, [unit], 0, None);
            var end := Replay(EMPTY, t.events);
            t.exit == Finished && IsMarked(end, "f") && end.imapFolders == {"A"}
  {
    var inserted, made, marking := FolderInserted("f", unit.graphPath, "A"), FolderEnsured("f", "A"), FolderMarked("f");
    var block := UnitBlock(EMPTY, false, unit);
    assert block == Block([inserted, made, marking], false);
    assert [unit][1..] == [] && [Checked(false)] + block.events + [] == [Checked(false)] + block.events;
    ReplayConcat(EMPTY, [Checked(false)], block.events);
    ReplayQuiet(EMPTY);
    ReplayThree(EMPTY, inserted, made, marking);
  }

  /**
   Two runs from an empty mailbox: the folder is called "A" in the first and "B" in the second. Nobody
   creates the mailbox "B", and a message ends failed though nothing but its refusal went wrong.
   */
  lemma RenameFailsMail() returns (first: JobRun, second: JobRun, message: string)
    ensures WellFormedRuns([first, second])
    ensures first.world.folders == Some(OneFolder("A")) && second.world.folders == Some(OneFolder("B"))
    ensures first.world.delimiter == '/' && second.world.delimiter == '/'
    ensures Faultless(Replay(EMPTY, RunEvents(EMPTY, first)), second)
    ensures HasFailed(Replay(EMPTY, History(EMPTY, [first, second])), Key(Mail, message))
  {
    hide Replay, RunEvents, PlainPath, Faultless, HasFailed;
    first := FirstRun();
    var events := RunEvents(EMPTY, first);
    var next := Replay(EMPTY, events);
    OneFolderPath("B");
    assert !MarksOpen(next, OneFolder("B"), map["f" := "B"]) by {
      assert OneFolder("B")[0].id == "f";
    }
    second, message := SomeRunRefuses(next, OneFolder("B"), '/');
    TwoRuns(EMPTY, first, second);
    ReplayConcat(EMPTY, events, RunEvents(next, second));
  }

  lemma TwoRuns(s: Mailbox, first: JobRun, second: JobRun)
    requires WellFormed(first.world) && WellFormed(second.world)
    ensures History(s, [first, second]) == RunEvents(s, first) + RunEvents(Replay(s, RunEvents(s, first)), second)
  {
    hide Replay, RunEvents;
    var runs, next := [first, second], Replay(s, RunEvents(s, first));
    assert runs[1..] == [second] && [second][1..] == [];
    assert History(next, [second]) == RunEvents(next, second) + [];
    assert History(s, runs) == RunEvents(s, first) + History(next, [second]);
  }
}
