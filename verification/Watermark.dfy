/**
 The resync watermark over a source mailbox that goes on changing, also while a run is under way. Each
 run is one whole run of the worker, failed, cancelled or cut off by a crash as it may be.
 */
module Watermark {
  import opened Wrappers
  import opened FolderMapping
  import opened ImportModel
  import opened Runner
  import opened Histories
  import opened Outcomes
  import opened Jobs

  const SECOND: nat := 1_000_000

  /** A version of a source item: the local time of the change and the stamp Graph gives it. */
  datatype Version = Version(changedAt: int, stamp: int)

  type Source = map<Key, Version>

  /**
   `covered` holds the categories of which every run that moved the watermark asked for all changes
   since the watermark before it.
   */
  datatype World = World(now: int, source: Source, db: Mailbox, covered: set<Category>)

  /** Time passes and items change or go, between two runs or during one. */
  datatype Step = Meanwhile(source: Source, to: int) | RunJob(run: JobRun, source: Source, to: int)

  // ---- what is taken from the source mailbox --------------------------------

  /** What is there at the end was there all along, or changed meanwhile and has a stamp that lags little. */
  ghost predicate Evolves(source: Source, from: int, later: Source, to: int) {
    from <= to
    && forall key :: key in later ==>
         (key in source && later[key] == source[key])
         || (from <= later[key].changedAt <= to && later[key].changedAt <= later[key].stamp + RESYNC_BUFFER)
  }

  predicate Migrates(options: Options, category: Category) {
    match category
    case Mail => options.migrateMail
    case Calendar => options.migrateCalendar
    case Contacts => options.migrateContacts
  }

  /** The filter on a category's stamps that a run sends. */
  function Since(db: Mailbox, options: Options, mailSinceDate: Option<int>, category: Category): Option<int> {
    var modifiedSince := ModifiedSince(options, db.watermark);
    if category == Mail then MailSince(mailSinceDate, modifiedSince) else modifiedSince
  }

  /** The filter is written with whole seconds. */
  function Truncate(t: int): (r: int)
    ensures r % SECOND == 0 && r <= t < r + SECOND
  {
    t - t % SECOND
  }

  predicate Asks(db: Mailbox, options: Options, mailSinceDate: Option<int>, category: Category, stamp: int) {
    var since := Since(db, options, mailSinceDate, category);
    Migrates(options, category) && (since.Some? ==> stamp >= Truncate(since.value))
  }

  predicate Holds(listing: Listing, id: string, stamp: int) {
    exists e :: e in listing.entries && e.id == id && e.stamp == stamp
  }

  /** Some listing of the run yields the item with this stamp. */
  ghost predicate Yields(db: Mailbox, run: JobRun, key: Key, stamp: int) {
    var world, since := run.world, Since(db, run.options, run.mailSinceDate, key.category);
    match key.category
    case Mail =>
      world.folders.Some? &&
      exists f :: f in world.folders.value && Holds(world.messages(f.id, since), key.externalId, stamp)
    case Calendar =>
      world.calendars.Some? &&
      exists c :: c in world.calendars.value && Holds(world.events(c, since), key.externalId, stamp)
    case Contacts => Holds(world.contacts(since), key.externalId, stamp)
  }

  /**
   What Graph owes a run about an item that has not changed since the run began: listings yield it in
   its one live version only, and a run that no listing stops has been yielded it if it asked for it.
   */
  ghost predicate GraphAnswers(db: Mailbox, run: JobRun, source: Source)
    requires WellFormed(run.world)
  {
    forall key :: key in source && source[key].changedAt < run.startedAt ==>
      && (forall stamp :: Yields(db, run, key, stamp) ==> stamp == source[key].stamp)
      && (TraceOf(db, run).exit == Finished && Asks(db, run.options, run.mailSinceDate, key.category, source[key].stamp)
          ==> Yields(db, run, key, source[key].stamp))
  }

  // ---- steps ----------------------------------------------------------------

  ghost predicate Enabled(w: World, step: Step) {
    Evolves(w.source, w.now, step.source, step.to)
    && (step.RunJob? ==>
          WellFormed(step.run.world) && step.run.startedAt == w.now && GraphAnswers(w.db, step.run, step.source))
  }

  /** Whether a filter reaches back to the time the watermark stands for. */
  predicate ReachesBack(since: Option<int>, w: World, category: Category) {
    since.None? ||
    (category in w.covered && w.db.watermark.Some? && since.value <= w.db.watermark.value - RESYNC_BUFFER)
  }

  function Covering(w: World, options: Options, mailSinceDate: Option<int>): set<Category> {
    set c: Category | c in {Mail, Calendar, Contacts} && Migrates(options, c)
                      && ReachesBack(Since(w.db, options, mailSinceDate, c), w, c)
  }

  ghost function Do(w: World, step: Step): World
    requires Enabled(w, step)
  {
    match step
    case Meanwhile(source, to) => w.(source := source, now := to)
    case RunJob(run, source, to) =>
      World(to, source, Replay(w.db, RunEvents(w.db, run)),
            if Advanced(w.db, run) then Covering(w, run.options, run.mailSinceDate) else w.covered)
  }

  // ---- coverage -------------------------------------------------------------

  ghost predicate HaveOutcomes(w: World, categories: set<Category>, before: int) {
    forall key :: key in w.source && key.category in categories && w.source[key].changedAt < before
      ==> HasOutcome(w.db, key, w.source[key].stamp)
  }

  /** Every item of a covered category last changed before the watermark has its outcome. */
  ghost predicate Coverage(w: World) {
    w.db.watermark.Some? ==> HaveOutcomes(w, w.covered, w.db.watermark.value)
  }

  ghost predicate SourceSane(w: World) {
    forall key :: key in w.source ==>
      w.source[key].changedAt <= w.now && w.source[key].changedAt <= w.source[key].stamp + RESYNC_BUFFER
  }

  ghost predicate Inv(w: World) {
    Coverage(w) && SourceSane(w) && Stamped(w.db) && (w.db.watermark.Some? ==> w.db.watermark.value <= w.now)
  }

  // ---- listings and units ---------------------------------------------------

  lemma {:induction false} EntryUnitsAre(category: Category, path: string, entries: seq<Entry>)
    ensures forall e :: e in entries ==>
              ItemUnit(ItemOf(category, path, e), e.script) in EntryUnits(category, path, entries)
    ensures forall u :: u in EntryUnits(category, path, entries)
              ==> exists e :: e in entries && u == ItemUnit(ItemOf(category, path, e), e.script)
  {
    if |entries| > 0 {
      EntryUnitsAre(category, path, entries[1..]);
      assert entries == [entries[0]] + entries[1..];
      assert entries[0] in entries;
    }
  }

  lemma ListedIsUnit(category: Category, path: string, listing: Listing, id: string, stamp: int)
    requires Holds(listing, id, stamp)
    ensures IsListed(ListingUnits(category, path, listing), Key(category, id))
  {
    EntryUnitsAre(category, path, listing.entries);
    var e :| e in listing.entries && e.id == id && e.stamp == stamp;
    assert ItemUnit(ItemOf(category, path, e), e.script) in ListingUnits(category, path, listing);
  }

  lemma UnitIsListed(category: Category, listing: Listing, unit: Unit)
    requires category != Mail && unit in ListingUnits(category, "", listing) && unit.ItemUnit?
    ensures !unit.item.Message? && unit.item.ItemKey().category == category
    ensures Holds(listing, unit.item.ItemKey().externalId, unit.item.stamp)
  {
    EntryUnitsAre(category, "", listing.entries);
    assert unit in EntryUnits(category, "", listing.entries);
    var e :| e in listing.entries && unit == ItemUnit(ItemOf(category, "", e), e.script);
  }

  lemma ListedWithin(units: seq<Unit>, before: seq<Unit>, after: seq<Unit>, key: Key)
    requires IsListed(units, key)
    ensures IsListed(before + units + after, key)
  {
    var u :| u in units && u.ItemUnit? && u.item.ItemKey() == key;
    assert u in before + units + after;
  }

  lemma {:induction false} FolderListed(folders: seq<Folder>, graphPaths: map<string, string>,
                                        paths: map<string, string>,
                                        world: Surroundings, since: Option<int>, f: Folder, id: string, stamp: int)
    requires forall f :: f in folders ==> f.id in graphPaths && f.id in paths
    requires f in folders && Holds(world.messages(f.id, since), id, stamp)
    ensures IsListed(FolderUnits(folders, graphPaths, paths, world, since), Key(Mail, id))
  {
    hide ListingUnits, Holds, IsListed;
    var head := folders[0].id;
    var first := [FolderUnit(head, graphPaths[head], paths[head], world.folderScript(head))];
    var listed := ListingUnits(Mail, paths[head], world.messages(head, since));
    var rest := FolderUnits(folders[1..], graphPaths, paths, world, since);
    if f == folders[0] {
      ListedIsUnit(Mail, paths[head], world.messages(head, since), id, stamp);
      ListedWithin(listed, first, rest, Key(Mail, id));
      assert first + (listed + rest) == first + listed + rest;
    } else {
      FolderListed(folders[1..], graphPaths, paths, world, since, f, id, stamp);
      ListedWithin(rest, first + listed, [], Key(Mail, id));
      assert first + (listed + rest) == first + listed + rest + [];
    }
  }

  lemma {:induction false} CalendarListed(calendars: seq<string>, world: Surroundings, since: Option<int>,
                                          c: string, id: string, stamp: int)
    requires c in calendars && Holds(world.events(c, since), id, stamp)
    ensures IsListed(CalendarUnits(calendars, world, since), Key(Calendar, id))
  {
    hide ListingUnits, Holds, IsListed;
    var listed := ListingUnits(Calendar, "", world.events(calendars[0], since));
    var rest := CalendarUnits(calendars[1..], world, since);
    if c == calendars[0] {
      ListedIsUnit(Calendar, "", world.events(c, since), id, stamp);
      ListedWithin(listed, [], rest, Key(Calendar, id));
      assert [] + listed + rest == listed + rest;
    } else {
      CalendarListed(calendars[1..], world, since, c, id, stamp);
      ListedWithin(rest, listed, [], Key(Calendar, id));
      assert listed + rest + [] == listed + rest;
    }
  }

  lemma MailIsUnit(world: Surroundings, since: Option<int>, f: Folder, id: string, stamp: int)
    requires WellFormed(world) && world.folders.Some? && Fault !in MailUnits(world, since)
    requires f in world.folders.value && Holds(world.messages(f.id, since), id, stamp)
    ensures IsListed(MailUnits(world, since), Key(Mail, id))
  {
    hide FolderUnits, PlainPath, Holds;
    var folders := world.folders.value;
    var graphPaths, paths := PathMap(folders, GraphNaming), PathMap(folders, ImapNaming(world.delimiter));
    assert Fault in [Fault];
    FolderListed(folders, graphPaths, paths, world, since, f, id, stamp);
  }

  lemma PassIsUnit(db: Mailbox, run: JobRun, key: Key, stamp: int)
    requires WellFormed(run.world) && run.options.migrateMail && key.category == Mail && Yields(db, run, key, stamp)
    requires Fault !in PassUnits(run.options, run.world, Since(db, run.options, run.mailSinceDate, Mail))
    ensures IsListed(PassUnits(run.options, run.world, Since(db, run.options, run.mailSinceDate, Mail)), key)
  {
    hide MailUnits, Holds, IsListed, FaultIf, Since, WellFormed, Acyclic;
    var world, since := run.world, Since(db, run.options, run.mailSinceDate, Mail);
    var units, close := MailUnits(world, since), FaultIf(world.closeRaises);
    var f :| f in world.folders.value && Holds(world.messages(f.id, since), key.externalId, stamp);
    assert PassUnits(run.options, world, since) == units + close;
    NotInFirst(units, close, Fault);
    MailIsUnit(world, since, f, key.externalId, stamp);
    ListedWithin(units, [], close, key);
    assert [] + units + close == units + close;
  }

  lemma NotInFirst(first: seq<Unit>, second: seq<Unit>, unit: Unit)
    requires unit !in first + second
    ensures unit !in first
  {
  }

  lemma ObjectIsUnit(db: Mailbox, run: JobRun, key: Key, stamp: int)
    requires key.category != Mail && Migrates(run.options, key.category) && Yields(db, run, key, stamp)
    ensures IsListed(ObjectUnits(run.options, run.world, ModifiedSince(run.options, db.watermark)), key)
  {
    hide CalendarUnits, ListingUnits, IsListed, Holds;
    var world, id, since := run.world, key.externalId, ModifiedSince(run.options, db.watermark);
    var calendars := if run.options.migrateCalendar then AllCalendarUnits(world, since) else [];
    var contacts := if run.options.migrateContacts then ContactUnits(world, since) else [];
    if key.category == Calendar {
      var c :| c in world.calendars.value && Holds(world.events(c, since), id, stamp);
      CalendarListed(world.calendars.value, world, since, c, id, stamp);
      ListedWithin(calendars, [], contacts, key);
      assert [] + calendars + contacts == calendars + contacts;
    } else {
      ListedIsUnit(Contacts, "", world.contacts(since), id, stamp);
      ListedWithin(contacts, calendars, [], key);
      assert calendars + contacts + [] == calendars + contacts;
    }
  }

  /** What a job is yielded in a category it migrates becomes a unit of its loops, if it gets that far. */
  lemma YieldedIsUnit(db: Mailbox, run: JobRun, key: Key, stamp: int)
    requires WellFormed(run.world) && Migrates(run.options, key.category) && Yields(db, run, key, stamp)
    requires Fault !in UnitsOf(db, run)
    ensures IsListed(UnitsOf(db, run), key)
  {
    hide PassUnits, ObjectUnits, IsListed, Yields;
    var modifiedSince := ModifiedSince(run.options, db.watermark);
    var pass := PassUnits(run.options, run.world, MailSince(run.mailSinceDate, modifiedSince));
    var objects := ObjectUnits(run.options, run.world, modifiedSince);
    assert Fault in [Fault];
    assert UnitsOf(db, run) == pass + objects;
    if key.category == Mail {
      PassIsUnit(db, run, key, stamp);
      ListedWithin(pass, [], objects, key);
      assert [] + pass + objects == pass + objects;
    } else {
      ObjectIsUnit(db, run, key, stamp);
      ListedWithin(objects, pass, [], key);
      assert pass + objects + [] == pass + objects;
    }
  }

  lemma {:induction false} FoldersHoldMessages(folders: seq<Folder>, graphPaths: map<string, string>,
                                               paths: map<string, string>, world: Surroundings, since: Option<int>)
    requires forall f :: f in folders ==> f.id in graphPaths && f.id in paths
    ensures forall u :: u in FolderUnits(folders, graphPaths, paths, world, since) && u.ItemUnit? ==> u.item.Message?
  {
    hide EntryUnits;
    if |folders| > 0 {
      var id := folders[0].id;
      EntryUnitsAre(Mail, paths[id], world.messages(id, since).entries);
      FoldersHoldMessages(folders[1..], graphPaths, paths, world, since);
    }
  }

  lemma {:induction false} CalendarsYield(calendars: seq<string>, world: Surroundings, since: Option<int>, unit: Unit)
    requires unit in CalendarUnits(calendars, world, since) && unit.ItemUnit?
    ensures !unit.item.Message? && unit.item.ItemKey().category == Calendar
    ensures exists c :: c in calendars && Holds(world.events(c, since), unit.item.ItemKey().externalId, unit.item.stamp)
  {
    hide ListingUnits, Holds;
    if unit in ListingUnits(Calendar, "", world.events(calendars[0], since)) {
      UnitIsListed(Calendar, world.events(calendars[0], since), unit);
    } else {
      CalendarsYield(calendars[1..], world, since, unit);
    }
  }

  /** The version of an event or contact in a unit is one that a listing has yielded. */
  lemma UnitIsYielded(db: Mailbox, run: JobRun, unit: Unit)
    requires WellFormed(run.world) && unit in UnitsOf(db, run) && unit.ItemUnit? && !unit.item.Message?
    ensures Yields(db, run, unit.item.ItemKey(), unit.item.stamp)
  {
    hide FolderUnits, CalendarUnits, ListingUnits, PlainPath, Holds;
    var world := run.world;
    var modifiedSince := ModifiedSince(run.options, db.watermark);
    var since := MailSince(run.mailSinceDate, modifiedSince);
    if unit in PassUnits(run.options, world, since) {
      var folders := world.folders.value;
      FoldersHoldMessages(folders, PathMap(folders, GraphNaming), PathMap(folders, ImapNaming(world.delimiter)), world,
                          since);
    } else if run.options.migrateCalendar && unit in AllCalendarUnits(world, modifiedSince) {
      CalendarsYield(world.calendars.value, world, modifiedSince, unit);
    } else {
      UnitIsListed(Contacts, world.contacts(modifiedSince), unit);
    }
  }

  // ---- every step keeps the invariant ---------------------------------------

  /** The versions a run works on are no older than those of the items that stay as they are. */
  lemma LiveAtLeast(db: Mailbox, run: JobRun, source: Source, key: Key)
    requires WellFormed(run.world) && GraphAnswers(db, run, source) && key in source
             && source[key].changedAt < run.startedAt
    ensures AtLeast(UnitsOf(db, run), key, source[key].stamp)
  {
    hide UnitsOf, Yields, TraceOf, Asks;
    forall u | u in UnitsOf(db, run) && u.ItemUnit? && u.item.ItemKey() == key && !u.item.Message?
      ensures u.item.stamp >= source[key].stamp
    {
      UnitIsYielded(db, run, u);
    }
  }

  /** An outcome an unchanged item has stays through every run, cut off or not. */
  lemma UnchangedKeeps(db: Mailbox, run: JobRun, source: Source, key: Key)
    requires WellFormed(run.world) && GraphAnswers(db, run, source) && key in source
             && source[key].changedAt < run.startedAt
    requires HasOutcome(db, key, source[key].stamp)
    ensures HasOutcome(Replay(db, RunEvents(db, run)), key, source[key].stamp)
  {
    hide UnitsOf, TraceOf, RunEvents, Replay, GraphAnswers, HasOutcome;
    LiveAtLeast(db, run, source, key);
    LogKeeps(db, run, key, source[key].stamp);
    OutcomeStays(db, RunEvents(db, run), key, source[key].stamp);
  }

  /** A run that moves the watermark leaves an outcome for every unchanged item it asked for. */
  lemma AskedHasOutcome(db: Mailbox, run: JobRun, source: Source, key: Key)
    requires WellFormed(run.world) && GraphAnswers(db, run, source) && key in source
             && source[key].changedAt < run.startedAt
    requires Stamped(db) && Advanced(db, run)
    requires Asks(db, run.options, run.mailSinceDate, key.category, source[key].stamp)
    ensures HasOutcome(Replay(db, RunEvents(db, run)), key, source[key].stamp)
  {
    hide JobUnits, JobTrace, RunUnits, RunEvents, Replay, Yields, Stamped, Advanced, Asks, AtLeast, IsListed;
    AfterRun(db, run);
    JobAsOneRun(db, run.options, run.world, run.mailSinceDate, run.cancelAt);
    FinishedHasNoFault(db, run.options.dryRun, UnitsOf(db, run), 0, run.cancelAt);
    AsksMigrates(db, run, key, source[key].stamp);
    YieldedIsUnit(db, run, key, source[key].stamp);
    LiveAtLeast(db, run, source, key);
    FinishedJobHasOutcome(db, run, key, source[key].stamp);
  }

  lemma AsksMigrates(db: Mailbox, run: JobRun, key: Key, stamp: int)
    requires Asks(db, run.options, run.mailSinceDate, key.category, stamp)
    ensures Migrates(run.options, key.category)
  {
  }

  /**
   An initial job without a mail date lists everything: when it has moved the watermark, every unchanged
   item of the categories it migrates has its outcome, whatever watermark there was and whatever it covered.
   */
  lemma InitialRunCovers(db: Mailbox, run: JobRun, source: Source, key: Key)
    requires WellFormed(run.world) && GraphAnswers(db, run, source) && key in source
             && source[key].changedAt < run.startedAt
    requires run.options.jobType == INITIAL && run.mailSinceDate == None && Stamped(db) && Advanced(db, run)
    requires key.category == Mail ==> run.options.migrateMail
    requires key.category == Calendar ==> run.options.migrateCalendar
    requires key.category == Contacts ==> run.options.migrateContacts
    ensures HasOutcome(Replay(db, RunEvents(db, run)), key, source[key].stamp)
  {
    hide RunEvents, Replay, GraphAnswers, Advanced, HasOutcome, Stamped;
    AskedHasOutcome(db, run, source, key);
  }

  /** Items a covering filter leaves out were covered before: truncation and the start time open no gap. */
  lemma LeftOutWasCovered(w: World, run: JobRun, key: Key)
    requires Inv(w) && key in w.source && key.category in Covering(w, run.options, run.mailSinceDate)
    requires !Asks(w.db, run.options, run.mailSinceDate, key.category, w.source[key].stamp)
    ensures HasOutcome(w.db, key, w.source[key].stamp)
  {
    hide HasOutcome, Stamped;
    var since := Since(w.db, run.options, run.mailSinceDate, key.category);
    assert Truncate(since.value) <= since.value;
    assert w.source[key].changedAt < w.db.watermark.value;
  }

  lemma RunKeepsCoverage(w: World, run: JobRun, source: Source, to: int)
    requires Inv(w) && Enabled(w, RunJob(run, source, to))
    ensures Coverage(Do(w, RunJob(run, source, to)))
  {
    hide HasOutcome, Stamped, RunEvents, Replay, Advanced, Asks, GraphAnswers, Covering, SourceSane;
    var end := Do(w, RunJob(run, source, to));
    AfterRun(w.db, run);
    if end.db.watermark.Some? {
      forall key | key in source && key.category in end.covered && source[key].changedAt < end.db.watermark.value
        ensures HasOutcome(end.db, key, source[key].stamp)
      {
        assert key in w.source && w.source[key] == source[key];
        if Advanced(w.db, run) {
          if Asks(w.db, run.options, run.mailSinceDate, key.category, source[key].stamp) {
            AskedHasOutcome(w.db, run, source, key);
          } else {
            LeftOutWasCovered(w, run, key);
            UnchangedKeeps(w.db, run, source, key);
          }
        } else {
          UnchangedKeeps(w.db, run, source, key);
        }
      }
    }
  }

  lemma SaneAfter(w: World, step: Step)
    requires SourceSane(w) && Enabled(w, step)
    ensures SourceSane(Do(w, step))
  {
    hide GraphAnswers, RunEvents, Replay, Advanced, Covering;
  }

  lemma StepKeeps(w: World, step: Step)
    requires Inv(w) && Enabled(w, step)
    ensures Inv(Do(w, step))
  {
    hide HasOutcome, Stamped, RunEvents, Replay, Advanced, GraphAnswers, Covering;
    SaneAfter(w, step);
    if step.RunJob? {
      RunKeepsCoverage(w, step.run, step.source, step.to);
      AfterRun(w.db, step.run);
    }
  }

  // ---- histories ------------------------------------------------------------

  ghost predicate Possible(w: World, steps: seq<Step>)
    decreases |steps|
  {
    |steps| == 0 || (Enabled(w, steps[0]) && Possible(Do(w, steps[0]), steps[1..]))
  }

  ghost function After(w: World, steps: seq<Step>): World
    requires Possible(w, steps)
    decreases |steps|
  {
    if |steps| == 0 then w else After(Do(w, steps[0]), steps[1..])
  }

  /** No rows and no watermark; the source may hold anything whose stamps lag by at most the buffer. */
  ghost predicate Initial(w: World) {
    w.db.items == map[] && w.db.watermark == None && SourceSane(w)
  }

  /**
   Over every history of changes, runs, crashes and resumes, every item of a covered category that
   was last changed before the watermark has failed or been imported in a version at least as new.
   */
  lemma {:induction false} WatermarkCoverage(w: World, steps: seq<Step>)
    requires Inv(w) && Possible(w, steps)
    ensures Inv(After(w, steps)) && Coverage(After(w, steps))
    decreases |steps|
  {
    hide Enabled, Do;
    if |steps| > 0 {
      StepKeeps(w, steps[0]);
      WatermarkCoverage(Do(w, steps[0]), steps[1..]);
    }
  }

  /** A dry run, or a job that migrates the category and filters its mail no later than a resync would. */
  predicate Reaches(options: Options, mailSinceDate: Option<int>, watermark: Option<int>, category: Category) {
    options.dryRun
    || (Migrates(options, category)
        && (category == Mail && mailSinceDate.Some? ==>
              watermark.Some? && mailSinceDate.value <= watermark.value - RESYNC_BUFFER))
  }

  ghost predicate OnlyReaching(w: World, steps: seq<Step>, category: Category)
    requires Possible(w, steps)
    decreases |steps|
  {
    |steps| == 0 ||
    ((steps[0].RunJob? ==> Reaches(steps[0].run.options, steps[0].run.mailSinceDate, w.db.watermark, category))
     && OnlyReaching(Do(w, steps[0]), steps[1..], category))
  }

  ghost predicate Kept(w: World, category: Category) {
    w.db.watermark.Some? ==> category in w.covered
  }

  lemma KeptStep(w: World, step: Step, category: Category)
    requires Kept(w, category) && Enabled(w, step)
    requires step.RunJob? ==> Reaches(step.run.options, step.run.mailSinceDate, w.db.watermark, category)
    ensures Kept(Do(w, step), category)
  {
    hide RunEvents, Replay, Advanced, GraphAnswers, Stamped;
    assert category in {Mail, Calendar, Contacts};
    if step.RunJob? {
      AfterRun(w.db, step.run);
    }
  }

  lemma {:induction false} KeptAfter(w: World, steps: seq<Step>, category: Category)
    requires Inv(w) && Kept(w, category) && Possible(w, steps) && OnlyReaching(w, steps, category)
    ensures Inv(After(w, steps)) && Kept(After(w, steps), category)
    decreases |steps|
  {
    hide Enabled, Do, Inv, Kept, Reaches;
    if |steps| > 0 {
      StepKeeps(w, steps[0]);
      KeptStep(w, steps[0], category);
      KeptAfter(Do(w, steps[0]), steps[1..], category);
    }
  }

  /** Every source item of the category last changed before the watermark has its outcome. */
  ghost predicate CategoryCovered(w: World, category: Category) {
    w.db.watermark.Some? ==> HaveOutcomes(w, {category}, w.db.watermark.value)
  }

  /** Runs that each reach back to the watermark before them leave no item of the category behind. */
  lemma ReachingRunsCover(w: World, steps: seq<Step>, category: Category)
    requires Initial(w) && Possible(w, steps) && OnlyReaching(w, steps, category)
    ensures CategoryCovered(After(w, steps), category)
  {
    KeptAfter(w, steps, category);
  }

  /** Created resyncs reach back in every category, also when the watermark has moved on by the time they run. */
  lemma ResyncsReach(jobs: JobTable, first: nat, added: seq<nat>, watermarks: map<nat, Option<int>>, k: nat,
                     watermark: int, category: Category)
    requires AreResyncs(jobs, first, added, watermarks) && k < |added| && watermarks[added[k]].value <= watermark
    ensures var job := jobs[first + k];
            job.options.jobType == RESYNC && !job.options.dryRun
            && Reaches(job.options, job.mailSinceDate, Some(watermark), category)
  {
  }

  /** Every run is one of a job with these options and this mail date. */
  predicate OnlyRuns(steps: seq<Step>, options: Options, mailSinceDate: Option<int>) {
    forall i :: 0 <= i < |steps| && steps[i].RunJob?
      ==> steps[i].run.options == options && steps[i].run.mailSinceDate == mailSinceDate
  }

  /** However often jobs of this kind run, fail, crash or resume, the watermark speaks for the category. */
  ghost predicate KindCovers(options: Options, mailSinceDate: Option<int>, category: Category) {
    forall w, steps :: Initial(w) && Possible(w, steps) && OnlyRuns(steps, options, mailSinceDate)
      ==> CategoryCovered(After(w, steps), category)
  }

  lemma {:induction false} OneKindReaches(w: World, steps: seq<Step>, options: Options, mailSinceDate: Option<int>,
                                          category: Category)
    requires Possible(w, steps) && OnlyRuns(steps, options, mailSinceDate)
    requires Migrates(options, category) && (category == Mail ==> mailSinceDate.None?)
    ensures OnlyReaching(w, steps, category)
    decreases |steps|
  {
    hide Enabled, Do;
    if |steps| > 0 {
      assert forall i :: 0 <= i < |steps[1..]| ==> steps[1..][i] == steps[i + 1];
      OneKindReaches(Do(w, steps[0]), steps[1..], options, mailSinceDate, category);
    }
  }

  /**
   The watermark of real jobs of one kind speaks for a category exactly when they migrate it and, for
   mail, carry no date of their own; yet it moves whenever such a job finishes.
   */
  lemma KindCoversExactly(options: Options, mailSinceDate: Option<int>, category: Category)
    requires !options.dryRun
    ensures KindCovers(options, mailSinceDate, category)
            <==> Migrates(options, category) && (category == Mail ==> mailSinceDate.None?)
  {
    hide Do, Enabled, Initial, HaveOutcomes, Asks;
    if Migrates(options, category) && (category == Mail ==> mailSinceDate.None?) {
      forall w, steps | Initial(w) && Possible(w, steps) && OnlyRuns(steps, options, mailSinceDate)
        ensures CategoryCovered(After(w, steps), category)
      {
        OneKindReaches(w, steps, options, mailSinceDate, category);
        ReachingRunsCover(w, steps, category);
      }
    } else {
      var key := Key(category, "");
      var w := BeforeFilter(options, mailSinceDate, key);
      var steps := UnlistedItemLeavesGap(options, mailSinceDate, key, w);
      GapIsUncovered(After(w, steps), key);
    }
  }

  /** An empty mailbox at a time the filter leaves out. */
  lemma BeforeFilter(options: Options, mailSinceDate: Option<int>, key: Key) returns (w: World)
    requires Migrates(options, key.category) ==> key.category == Mail && mailSinceDate.Some?
    ensures Initial(w) && w.source == map[] && !Asks(w.db, options, mailSinceDate, key.category, w.now)
  {
    var now := if mailSinceDate.Some? then Truncate(mailSinceDate.value) - 1 else 0;
    var db := Mailbox(map[], map[], Counters(0, 0, 0, 0), None, {}, multiset{}, map[]);
    w := World(now, map[], db, {});
  }

  lemma GapIsUncovered(w: World, key: Key)
    requires key in w.source && w.db.watermark.Some? && w.source[key].changedAt < w.db.watermark.value
    requires !HasOutcome(w.db, key, w.source[key].stamp)
    ensures !CategoryCovered(w, key.category)
  {
  }

  lemma NothingIsAcyclic()
    ensures WellFormed(QuietWorld([], '/'))
  {
    assert Ranked(ById([]), map[]);
  }

  lemma EmptyTrace(db: Mailbox, run: JobRun)
    requires run.world == QuietWorld([], '/') && run.cancelAt == None
    ensures WellFormed(run.world) && TraceOf(db, run) == Trace([], Finished)
  {
    hide PlainPath, JobTrace;
    NothingIsAcyclic();
    assert ListingUnits(Contacts, "", NOTHING) == [] && CalendarUnits([], run.world, None) == [];
    assert UnitsOf(db, run) == [];
    JobAsOneRun(db, run.options, run.world, run.mailSinceDate, run.cancelAt);
  }

  /** A real run over nothing moves the watermark and does nothing else. */
  lemma EmptyRun(db: Mailbox, run: JobRun)
    requires run.world == QuietWorld([], '/') && !run.options.dryRun && run.cancelAt == None && run.cut == 1
    ensures WellFormed(run.world) && TraceOf(db, run) == Trace([], Finished)
    ensures RunEvents(db, run) == [WatermarkSet(run.startedAt), RunEnded]
    ensures Replay(db, RunEvents(db, run)) == db.(watermark := Some(run.startedAt))
  {
    hide JobTrace, Replay, WellFormed;
    EmptyTrace(db, run);
    ReplayQuiet(db);
    var at := WatermarkSet(run.startedAt);
    assert WholeLog(db, run) == [at] && [at] + [RunEnded] == [at, RunEnded];
    ReplayOne(db, [], at);
    ReplayOne(db, [at], RunEnded);
    assert [] + [at] == [at];
  }

  /**
   A real run that does not ask for an item, because its category is switched off or its stamp lies before
   the job's own mail date, moves the watermark past it all the same.
   */
  lemma UnlistedItemLeavesGap(options: Options, mailSinceDate: Option<int>, key: Key, w: World)
    returns (steps: seq<Step>)
    requires Initial(w) && w.source == map[] && !options.dryRun
    requires !Asks(w.db, options, mailSinceDate, key.category, w.now)
    ensures Possible(w, steps) && OnlyRuns(steps, options, mailSinceDate)
    ensures var end := After(w, steps);
            key in end.source && end.db.watermark.Some? && end.source[key].changedAt < end.db.watermark.value
            && !HasOutcome(end.db, key, end.source[key].stamp)
  {
    var source := map[key := Version(w.now, w.now)];
    var change, wait := Meanwhile(source, w.now), Meanwhile(source, w.now + 1);
    var w1 := Do(w, change);
    var w2 := Do(w1, wait);
    var run := JobRun(options, QuietWorld([], '/'), mailSinceDate, None, w.now + 1, 1);
    var job := RunJob(run, source, w.now + 1);
    EmptyRun(w2.db, run);
    NothingAnswers(w2.db, run, source, key);
    var w3 := Do(w2, job);
    steps := [change, wait, job];
    ThreeSteps(w, steps, w1, w2, w3);
  }

  lemma NothingAnswers(db: Mailbox, run: JobRun, source: Source, key: Key)
    requires run.world == QuietWorld([], '/') && WellFormed(run.world) && source.Keys == {key}
    requires !Asks(db, run.options, run.mailSinceDate, key.category, source[key].stamp)
    ensures GraphAnswers(db, run, source)
  {
    hide JobTrace;
    assert forall id, stamp :: !Holds(NOTHING, id, stamp);
  }

  lemma ThreeSteps(w: World, steps: seq<Step>, w1: World, w2: World, w3: World)
    requires |steps| == 3
    requires Enabled(w, steps[0]) && w1 == Do(w, steps[0])
    requires Enabled(w1, steps[1]) && w2 == Do(w1, steps[1])
    requires Enabled(w2, steps[2]) && w3 == Do(w2, steps[2])
    ensures Possible(w, steps) && After(w, steps) == w3
  {
    hide Enabled, Do;
    var a, b := steps[1..], steps[1..][1..];
    assert Possible(w3, b[1..]) && After(w3, b[1..]) == w3;
    assert Possible(w2, b) && After(w2, b) == w3;
    assert Possible(w1, a) && After(w1, a) == w3;
  }
}
