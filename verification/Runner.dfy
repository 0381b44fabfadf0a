/** The worker that runs one migration job (app/jobs/runner.py). */
module Runner {
  import opened Wrappers
  import opened FolderMapping
  import opened ImportModel

  /** Instants are microseconds. */
  const RESYNC_BUFFER: nat := 15 * 60 * 1_000_000

  datatype JobStatus = PENDING | RUNNING | COMPLETED | FAULTED | CANCELLED

  predicate IsTerminal(status: JobStatus) {
    status == COMPLETED || status == FAULTED || status == CANCELLED
  }

  datatype JobType = INITIAL | RESYNC

  datatype Options = Options(
    jobType: JobType,
    migrateMail: bool,
    migrateCalendar: bool,
    migrateContacts: bool,
    dryRun: bool
  )

  /** One listed message, event or contact with its stamp and the outcomes its import meets. */
  datatype Entry = Entry(id: string, stamp: int, script: Script)

  /** What a listing yields before it ends or raises. */
  datatype Listing = Listing(entries: seq<Entry>, raises: bool)

  /**
   Whether the calls on the job's own row go through: the commit of the guarded start, the read after
   it, the guarded terminal updates, and the commit at the very end. A call that raises changes nothing.
   */
  datatype RowCalls = RowCalls(
    started: bool,
    refreshed: bool,
    completionWritten: bool,
    failureWritten: bool,
    committed: bool
  )

  /**
   The answers of the database, of Graph and of the target during one run; None stands for a call that
   raises. The setup may raise before the resync date is stored in the job, the clients after it.
   */
  datatype Surroundings = Surroundings(
    calls: RowCalls,
    setupRaises: bool,
    clientRaises: bool,
    connects: Commits,
    delimiter: char,
    folders: Option<seq<Folder>>,
    folderScript: string -> FolderScript,
    messages: (string, Option<int>) -> Listing,
    closeRaises: bool,
    calendars: Option<seq<string>>,
    events: (string, Option<int>) -> Listing,
    contacts: Option<int> -> Listing
  )

  // ---- the units of the loops -----------------------------------------------

  function ItemOf(category: Category, path: string, entry: Entry): Item {
    match category
    case Mail => Message(entry.id, path)
    case Calendar => EventItem(entry.id, entry.stamp)
    case Contacts => Contact(entry.id, entry.stamp)
  }

  function EntryUnits(category: Category, path: string, entries: seq<Entry>): seq<Unit> {
    if |entries| == 0 then []
    else [ItemUnit(ItemOf(category, path, entries[0]), entries[0].script)] + EntryUnits(category, path, entries[1..])
  }

  function FaultIf(raises: bool): seq<Unit> {
    if raises then [Fault] else []
  }

  function ListingUnits(category: Category, path: string, listing: Listing): seq<Unit> {
    EntryUnits(category, path, listing.entries) + FaultIf(listing.raises)
  }

  ghost function PathMap(folders: seq<Folder>, naming: Naming): map<string, string>
    requires Acyclic(ById(folders))
  {
    map id | id in ById(folders) :: PlainPath(ById(folders), naming, id)
  }

  function FolderUnits(folders: seq<Folder>, graphPaths: map<string, string>, imapPaths: map<string, string>,
                       world: Surroundings, since: Option<int>): seq<Unit>
    requires forall f :: f in folders ==> f.id in graphPaths && f.id in imapPaths
  {
    if |folders| == 0 then []
    else
      var id := folders[0].id;
      [FolderUnit(id, graphPaths[id], imapPaths[id], world.folderScript(id))]
      + (ListingUnits(Mail, imapPaths[id], world.messages(id, since))
         + FolderUnits(folders[1..], graphPaths, imapPaths, world, since))
  }

  /** Some of the three connection attempts succeeds. */
  predicate Connects(world: Surroundings) {
    world.connects[0] || world.connects[1] || world.connects[2]
  }

  ghost predicate WellFormed(world: Surroundings) {
    world.folders.Some? ==> Acyclic(ById(world.folders.value))
  }

  ghost function MailUnits(world: Surroundings, since: Option<int>): seq<Unit>
    requires WellFormed(world)
  {
    if !Connects(world) || world.folders.None? then [Fault]
    else
      var folders := world.folders.value;
      FolderUnits(folders, PathMap(folders, GraphNaming), PathMap(folders, ImapNaming(world.delimiter)), world, since)
  }

  function CalendarUnits(calendars: seq<string>, world: Surroundings, since: Option<int>): seq<Unit> {
    if |calendars| == 0 then []
    else ListingUnits(Calendar, "", world.events(calendars[0], since)) + CalendarUnits(calendars[1..], world, since)
  }

  function AllCalendarUnits(world: Surroundings, since: Option<int>): seq<Unit> {
    match world.calendars
    case None => [Fault]
    case Some(calendars) => CalendarUnits(calendars, world, since)
  }

  function ContactUnits(world: Surroundings, since: Option<int>): seq<Unit> {
    ListingUnits(Contacts, "", world.contacts(since))
  }

  // ---- what a whole run does ------------------------------------------------

  /** The lower bound on change stamps that a resync asks Graph for. */
  function ModifiedSince(options: Options, watermark: Option<int>): Option<int> {
    if options.jobType == RESYNC && watermark.Some? then Some(watermark.value - RESYNC_BUFFER) else None
  }

  /** The lower bound on received stamps: the job's own date, or else the resync bound. */
  function MailSince(mailSinceDate: Option<int>, modifiedSince: Option<int>): Option<int> {
    if mailSinceDate.None? then modifiedSince else mailSinceDate
  }

  /** The mail pass; closing the IMAP connection may raise whatever happened before. */
  ghost function MailTrace(log: seq<Event>, s: Mailbox, options: Options, world: Surroundings, since: Option<int>,
                           cancelAt: Option<nat>): Trace
    requires WellFormed(world)
  {
    if !options.migrateMail then Trace(log, Finished)
    else
      var mail := Future(log, s, options.dryRun, MailUnits(world, since), cancelAt);
      if world.closeRaises then Trace(mail.events, Raised) else mail
  }

  function ObjectUnits(options: Options, world: Surroundings, modifiedSince: Option<int>): seq<Unit> {
    (if options.migrateCalendar then AllCalendarUnits(world, modifiedSince) else [])
    + (if options.migrateContacts then ContactUnits(world, modifiedSince) else [])
  }

  /** The log after the enabled passes, and their exit, for a job that won its start with this log. */
  ghost function JobTrace(init: Mailbox, log: seq<Event>, options: Options, world: Surroundings,
                          mailSinceDate: Option<int>, cancelAt: Option<nat>): Trace
    requires WellFormed(world)
  {
    var s := Replay(init, log);
    if world.setupRaises || world.clientRaises then Trace(log, Raised)
    else
      var modifiedSince := ModifiedSince(options, s.watermark);
      var mail := MailTrace(log, s, options, world, MailSince(mailSinceDate, modifiedSince), cancelAt);
      if mail.exit != Finished then mail
      else Future(mail.events, Replay(init, mail.events), options.dryRun, ObjectUnits(options, world, modifiedSince),
                  cancelAt)
  }

  /** A real run whose passes all finished moves the watermark, with the commit that ends it. */
  predicate Advances(exit: Exit, options: Options, calls: RowCalls) {
    exit == Finished && !options.dryRun && calls.completionWritten && calls.committed
  }

  /** The log after a run that found its job pending. */
  ghost function RunLog(init: Mailbox, log: seq<Event>, options: Options, world: Surroundings,
                        mailSinceDate: Option<int>, cancelAt: Option<nat>, startedAt: int): seq<Event>
    requires WellFormed(world)
  {
    if !world.calls.started || !world.calls.refreshed then log
    else
      var end := JobTrace(init, log, options, world, mailSinceDate, cancelAt);
      end.events + if Advances(end.exit, options, world.calls) then [WatermarkSet(startedAt)] else []
  }

  // ---- the runner -----------------------------------------------------------

  class MigrationRun {
    ghost const init: Mailbox
    const options: Options
    /** When a cancel lands after the guarded start; one that came before it is the status CANCELLED. */
    const cancelAt: Option<nat>

    var items: map<Key, ItemRow>
    var folders: map<string, FolderRow>
    var counters: Counters
    var watermark: Option<int>
    var imapFolders: set<string>
    var messages: multiset<string>
    var objects: map<Key, int>
    var log: seq<Event>

    var status: JobStatus
    var startedAt: Option<int>
    var finishedAt: Option<int>
    var mailSinceDate: Option<int>

    ghost function View(): Mailbox
      reads this
    {
      Mailbox(items, folders, counters, watermark, imapFolders, messages, objects)
    }

    /** The rows and the target are what the logged events made of the initial ones. */
    ghost predicate Valid()
      reads this
    {
      View() == Replay(init, log)
    }

    ghost function Outlook(units: seq<Unit>): Trace
      reads this
    {
      Future(log, View(), options.dryRun, units, cancelAt)
    }

    constructor (mailbox: Mailbox, options: Options, status: JobStatus, mailSinceDate: Option<int>,
                 cancelAt: Option<nat>)
      ensures Valid() && View() == mailbox && log == []
      ensures this.options == options && this.cancelAt == cancelAt && this.init == mailbox
      ensures this.status == status && this.mailSinceDate == mailSinceDate
      ensures startedAt == None && finishedAt == None
    {
      init := mailbox;
      this.options, this.cancelAt := options, cancelAt;
      items, folders, counters, watermark := mailbox.items, mailbox.folders, mailbox.counters, mailbox.watermark;
      imapFolders, messages, objects := mailbox.imapFolders, mailbox.messages, mailbox.objects;
      log := [];
      this.status, this.mailSinceDate := status, mailSinceDate;
      startedAt, finishedAt := None, None;
    }

    /** The status in the job table: a cancel that has landed wins over what this worker wrote. */
    function CurrentStatus(): JobStatus
      reads this
    {
      if CancelledBy(cancelAt, |log|) then CANCELLED else status
    }

    /** `_is_cancelled`: reads the job row again. */
    method IsCancelled() returns (cancelled: bool)
      requires Valid() && status == RUNNING
      modifies `log
      ensures Valid() && cancelled == CancelledBy(cancelAt, |old(log)|)
      ensures log == old(log) + [Checked(cancelled)]
    {
      hide Replay;
      cancelled := CurrentStatus() == CANCELLED;
      log := log + [Checked(cancelled)];
      ReplayOne(init, old(log), Checked(cancelled));
    }

    // ---- repositories -------------------------------------------------------

    function GetItem(key: Key): Option<ItemRow>
      reads this
    {
      if key in items then Some(items[key]) else None
    }

    method RecordSuccess(key: Key, sourceModifiedAt: Option<int>)
      requires Valid()
      modifies `items, `log
      ensures Valid() && log == old(log) + [RowDone(key, sourceModifiedAt)]
      ensures items == old(items)[key := ItemRow(DONE, if sourceModifiedAt.Some? then sourceModifiedAt
                                                       else if key in old(items) then old(items)[key].sourceModifiedAt
                                                       else None)]
    {
      hide Replay;
      var item := match GetItem(key) case None => ItemRow(DONE, None) case Some(row) => row;
      item := item.(status := DONE);
      if sourceModifiedAt.Some? {
        item := item.(sourceModifiedAt := sourceModifiedAt);
      }
      items := items[key := item];
      log := log + [RowDone(key, sourceModifiedAt)];
      ReplayOne(init, old(log), RowDone(key, sourceModifiedAt));
    }

    method RecordFailure(key: Key)
      requires Valid()
      modifies `items, `log
      ensures Valid() && log == old(log) + [RowFailed(key)]
      ensures items == old(items)[key := ItemRow(FAILED, if key in old(items) then old(items)[key].sourceModifiedAt
                                                         else None)]
    {
      hide Replay;
      if key !in items {
        items := items[key := ItemRow(FAILED, None)];
      } else {
        items := items[key := items[key].(status := FAILED)];
      }
      log := log + [RowFailed(key)];
      ReplayOne(init, old(log), RowFailed(key));
    }

    /** APPEND or PUT takes effect on the target. */
    method TakeEffect(item: Item)
      requires Valid()
      modifies `messages, `objects, `log
      ensures Valid() && log == old(log) + [item.Effect()]
    {
      hide Replay;
      match item {
        case Message(id, path) => messages := messages + multiset{id};
        case _ => objects := objects[item.ItemKey() := item.stamp];
      }
      log := log + [item.Effect()];
      ReplayOne(init, old(log), item.Effect());
    }

    method CommitCounter(key: Key, counter: Counter)
      requires Valid()
      modifies `counters, `log
      ensures Valid() && log == old(log) + [Counted(key, counter)]
    {
      hide Replay;
      counters := counters.Increment(counter);
      log := log + [Counted(key, counter)];
      ReplayOne(init, old(log), Counted(key, counter));
    }

    /** `_commit_with_retry`: a rollback discards the increment that was pending in the session. */
    method CommitWithRetry(key: Key, counter: Counter, commits: Commits) returns (raised: bool)
      requires Valid()
      modifies `counters, `log
      ensures Valid()
      ensures var block := CounterBlock(key, counter, commits);
              log == old(log) + block.events && raised == block.raised
    {
      hide Replay;
      var pending, attempt := true, 0;
      while attempt < MAX_ITEM_RETRIES && !commits[attempt]
        invariant attempt <= MAX_ITEM_RETRIES && pending == (attempt == 0)
        invariant forall i :: 0 <= i < attempt ==> !commits[i]
      {
        pending := false;
        attempt := attempt + 1;
      }
      raised := attempt == MAX_ITEM_RETRIES;
      if !raised && pending {
        CommitCounter(key, counter);
      }
    }

    // ---- one item -----------------------------------------------------------

    /** The retry loop; the last failed attempt leaves the failure to the caller. */
    method TryImport(item: Item, attempts: Attempts) returns (imported: bool)
      requires Valid()
      modifies `items, `messages, `objects, `log
      ensures Valid()
      ensures var tried := Tries(attempts, item.Effect(), RowDone(item.ItemKey(), item.Stamp()));
              log == old(log) + tried.events && imported == !tried.raised
    {
      hide Replay;
      ghost var effect, done := item.Effect(), RowDone(item.ItemKey(), item.Stamp());
      ghost var tried := Tries(attempts, effect, done);
      for attempt := 0 to MAX_ITEM_RETRIES
        invariant Valid()
        invariant log + Tries(attempts[attempt..], effect, done).events == old(log) + tried.events
        invariant Tries(attempts[attempt..], effect, done).raised == tried.raised
      {
        assert attempts[attempt..][1..] == attempts[attempt + 1..];
        if attempts[attempt] == NoEffect {
          continue;
        }
        TakeEffect(item);
        if attempts[attempt] == Succeeds {
          RecordSuccess(item.ItemKey(), item.Stamp());
          return true;
        }
      }
      imported := false;
    }

    /** `_migrate_one_message`, `_migrate_one_calendar_event` and `_migrate_one_contact`. */
    method MigrateOne(item: Item, script: Script) returns (raised: bool)
      requires Valid()
      modifies `items, `counters, `messages, `objects, `log
      ensures Valid()
      ensures var block := ItemBlock(old(View()), options.dryRun, item, script);
              log == old(log) + block.events && raised == block.raised
    {
      hide Replay;
      var key := item.ItemKey();
      var existing := GetItem(key);
      var success := item.SuccessCounter(existing.Some?);
      if !NeedsImport(existing, item.Stamp()) {
        raised := CommitWithRetry(key, Skipped, script.commits);
      } else if options.dryRun {
        raised := CommitWithRetry(key, success, script.commits);
      } else {
        var imported := TryImport(item, script.attempts);
        if imported {
          raised := CommitWithRetry(key, success, script.commits);
        } else if !script.failureRecorded {
          raised := true;
        } else {
          RecordFailure(key);
          raised := CommitWithRetry(key, Failures, script.commits);
        }
      }
    }

    // ---- one folder ---------------------------------------------------------

    /** The folder row, inserted when missing, and the mailbox, created when not marked yet. */
    method MigrateFolder(id: string, graphPath: string, path: string, script: FolderScript) returns (raised: bool)
      requires Valid()
      modifies `folders, `imapFolders, `log
      ensures Valid()
      ensures var block := FolderBlock(old(View()), options.dryRun, id, graphPath, path, script);
              log == old(log) + block.events && raised == block.raised
    {
      hide Replay;
      if id !in folders {
        if !script.inserted {
          return true;
        }
        folders := folders[id := FolderRow(graphPath, path, false)];
        log := log + [FolderInserted(id, graphPath, path)];
        ReplayOne(init, old(log), FolderInserted(id, graphPath, path));
      }
      if !folders[id].created && !options.dryRun {
        raised := EnsureFolder(id, path, script.ensured);
      } else {
        raised := false;
      }
    }

    method EnsureFolder(id: string, path: string, ensured: Attempt) returns (raised: bool)
      requires Valid() && id in folders
      modifies `folders, `imapFolders, `log
      ensures Valid()
      ensures var block := EnsureEvents(id, path, ensured);
              log == old(log) + block.events && raised == block.raised
    {
      hide Replay;
      if ensured == NoEffect {
        return true;
      }
      imapFolders := imapFolders + {path};
      log := log + [FolderEnsured(id, path)];
      ReplayOne(init, old(log), FolderEnsured(id, path));
      if ensured == EffectOnly {
        return true;
      }
      ghost var before := log;
      folders := folders[id := folders[id].(created := true)];
      log := log + [FolderMarked(id)];
      ReplayOne(init, before, FolderMarked(id));
      raised := false;
    }

    // ---- the loops ----------------------------------------------------------

    /** One pass of a loop body: the check, then the unit. */
    method MigrateUnit(unit: Unit, ghost more: seq<Unit>) returns (exit: Exit)
      requires Valid() && status == RUNNING && !unit.Fault?
      modifies `items, `folders, `counters, `imapFolders, `messages, `objects, `log
      ensures Valid()
      ensures exit == Finished ==> Outlook(more) == old(Outlook([unit] + more))
      ensures exit != Finished ==> Trace(log, exit) == old(Outlook([unit] + more))
    {
      ghost var before, s := log, View();
      var cancelled := IsCancelled();
      if cancelled {
        return CancelSeen;
      }
      FutureStep(before, s, options.dryRun, unit, more, cancelAt);
      ghost var checked := log;
      var raised;
      match unit {
        case FolderUnit(id, graphPath, path, script) => raised := MigrateFolder(id, graphPath, path, script);
        case ItemUnit(item, script) => raised := MigrateOne(item, script);
      }
      ReplayConcat(init, before, [Checked(false)]);
      ReplayConcat(init, checked, UnitBlock(s, options.dryRun, unit).events);
      exit := if raised then Raised else Finished;
    }

    method MigrateListing(category: Category, path: string, listing: Listing, ghost more: seq<Unit>)
      returns (exit: Exit)
      requires Valid() && status == RUNNING
      modifies `items, `folders, `counters, `imapFolders, `messages, `objects, `log
      ensures Valid()
      ensures exit == Finished ==> Outlook(more) == old(Outlook(ListingUnits(category, path, listing) + more))
      ensures exit != Finished ==> Trace(log, exit) == old(Outlook(ListingUnits(category, path, listing) + more))
    {
      hide Replay, UnitBlock;
      var entries := listing.entries;
      ghost var goal := Outlook(ListingUnits(category, path, listing) + more);
      ghost var tail := FaultIf(listing.raises) + more;
      assert ListingUnits(category, path, listing) + more == EntryUnits(category, path, entries[0..]) + tail;
      for i := 0 to |entries|
        invariant Valid()
        invariant Outlook(EntryUnits(category, path, entries[i..]) + tail) == goal
      {
        ghost var rest := EntryUnits(category, path, entries[i + 1..]) + tail;
        var unit := ItemUnit(ItemOf(category, path, entries[i]), entries[i].script);
        EntryStep(category, path, entries, i, tail);
        exit := MigrateUnit(unit, rest);
        if exit != Finished {
          return;
        }
      }
      assert EntryUnits(category, path, entries[|entries|..]) + tail == tail;
      if listing.raises {
        exit := Raised;
      } else {
        assert tail == more;
        exit := Finished;
      }
    }

    /** The folders in the order they are listed, and each one's messages before the next folder. */
    method MigrateFolders(folders: seq<Folder>, graphPaths: map<string, string>, imapPaths: map<string, string>,
                          world: Surroundings, since: Option<int>) returns (exit: Exit)
      requires Valid() && status == RUNNING
      requires forall f :: f in folders ==> f.id in graphPaths && f.id in imapPaths
      modifies `items, `folders, `counters, `imapFolders, `messages, `objects, `log
      ensures Valid()
      ensures Trace(log, exit) == old(Outlook(FolderUnits(folders, graphPaths, imapPaths, world, since)))
    {
      hide Replay, UnitBlock, ListingUnits;
      ghost var goal := Outlook(FolderUnits(folders, graphPaths, imapPaths, world, since));
      assert folders[0..] == folders;
      for i := 0 to |folders|
        invariant Valid()
        invariant Outlook(FolderUnits(folders[i..], graphPaths, imapPaths, world, since)) == goal
      {
        var id := folders[i].id;
        ghost var rest := FolderUnits(folders[i + 1..], graphPaths, imapPaths, world, since);
        var listing := world.messages(id, since);
        assert folders[i..][1..] == folders[i + 1..];
        exit := MigrateUnit(FolderUnit(id, graphPaths[id], imapPaths[id], world.folderScript(id)),
                            ListingUnits(Mail, imapPaths[id], listing) + rest);
        if exit != Finished {
          return;
        }
        exit := MigrateListing(Mail, imapPaths[id], listing, rest);
        if exit != Finished {
          return;
        }
      }
      exit := Finished;
      assert log + [] == log;
    }

    /** The retry loop around `connect`. */
    method Connect(world: Surroundings) returns (connected: bool)
      ensures connected == (world.connects[0] || world.connects[1] || world.connects[2])
    {
      var attempt := 0;
      while attempt < MAX_ITEM_RETRIES && !world.connects[attempt]
        invariant attempt <= MAX_ITEM_RETRIES
        invariant forall i :: 0 <= i < attempt ==> !world.connects[i]
      {
        attempt := attempt + 1;
      }
      connected := attempt < MAX_ITEM_RETRIES;
    }

    /** `_migrate_mail`. */
    method MigrateMail(world: Surroundings, since: Option<int>) returns (exit: Exit)
      requires Valid() && status == RUNNING && WellFormed(world) && options.migrateMail
      modifies `items, `folders, `counters, `imapFolders, `messages, `objects, `log
      ensures Valid()
      ensures Trace(log, exit) == old(MailTrace(log, View(), options, world, since, cancelAt))
    {
      hide Replay, FolderUnits, PlainPath;
      var connected := Connect(world);
      if !connected || world.folders.None? {
        exit := Raised;
        assert log + [] == log;
      } else {
        var folders := world.folders.value;
        var graphPaths := BuildFolderPaths(folders);
        var imapPaths := BuildImapPaths(folders, world.delimiter);
        assert graphPaths == PathMap(folders, GraphNaming);
        assert imapPaths == PathMap(folders, ImapNaming(world.delimiter));
        exit := MigrateFolders(folders, graphPaths, imapPaths, world, since);
      }
      if world.closeRaises {
        exit := Raised;
      }
    }

    /** `_migrate_calendar`. */
    method MigrateCalendar(world: Surroundings, modifiedSince: Option<int>, ghost more: seq<Unit>) returns (exit: Exit)
      requires Valid() && status == RUNNING
      modifies `items, `folders, `counters, `imapFolders, `messages, `objects, `log
      ensures Valid()
      ensures exit == Finished ==> Outlook(more) == old(Outlook(AllCalendarUnits(world, modifiedSince) + more))
      ensures exit != Finished ==> Trace(log, exit) == old(Outlook(AllCalendarUnits(world, modifiedSince) + more))
    {
      hide Replay, UnitBlock, ListingUnits;
      if world.calendars.None? {
        assert log + [] == log;
        return Raised;
      }
      var calendars := world.calendars.value;
      ghost var goal := Outlook(CalendarUnits(calendars, world, modifiedSince) + more);
      assert calendars[0..] == calendars;
      for i := 0 to |calendars|
        invariant Valid()
        invariant Outlook(CalendarUnits(calendars[i..], world, modifiedSince) + more) == goal
      {
        CalendarStep(calendars, i, world, modifiedSince, more);
        exit := MigrateListing(Calendar, "", world.events(calendars[i], modifiedSince),
                               CalendarUnits(calendars[i + 1..], world, modifiedSince) + more);
        if exit != Finished {
          return;
        }
      }
      assert CalendarUnits(calendars[|calendars|..], world, modifiedSince) + more == more;
      exit := Finished;
    }

    /** `_migrate_contacts`. */
    method MigrateContacts(world: Surroundings, modifiedSince: Option<int>) returns (exit: Exit)
      requires Valid() && status == RUNNING
      modifies `items, `folders, `counters, `imapFolders, `messages, `objects, `log
      ensures Valid()
      ensures Trace(log, exit) == old(Outlook(ContactUnits(world, modifiedSince)))
    {
      assert ContactUnits(world, modifiedSince) + [] == ContactUnits(world, modifiedSince);
      exit := MigrateListing(Contacts, "", world.contacts(modifiedSince), []);
      assert log + [] == log;
    }

    /** The calendar and contact passes that are enabled. */
    method MigrateObjects(world: Surroundings, modifiedSince: Option<int>) returns (exit: Exit)
      requires Valid() && status == RUNNING
      modifies `items, `folders, `counters, `imapFolders, `messages, `objects, `log
      ensures Valid()
      ensures Trace(log, exit) == old(Outlook(ObjectUnits(options, world, modifiedSince)))
    {
      ghost var contactUnits := if options.migrateContacts then ContactUnits(world, modifiedSince) else [];
      exit := Finished;
      if options.migrateCalendar {
        exit := MigrateCalendar(world, modifiedSince, contactUnits);
      } else {
        assert [] + contactUnits == contactUnits;
      }
      if exit == Finished {
        if options.migrateContacts {
          exit := MigrateContacts(world, modifiedSince);
        } else {
          assert log + [] == log;
        }
      }
    }

    // ---- run ----------------------------------------------------------------

    /** Reading the settings and the watermark, then the enabled passes. */
    method Migrate(world: Surroundings) returns (exit: Exit)
      requires Valid() && status == RUNNING && WellFormed(world)
      modifies `items, `folders, `counters, `imapFolders, `messages, `objects, `log, `mailSinceDate
      ensures Valid()
      ensures Trace(log, exit) == JobTrace(init, old(log), options, world, old(mailSinceDate), cancelAt)
      ensures mailSinceDate == if world.setupRaises then old(mailSinceDate)
                               else MailSince(old(mailSinceDate), ModifiedSince(options, old(watermark)))
    {
      hide Replay, RunUnits, MailUnits, ObjectUnits;
      if world.setupRaises {
        return Raised;
      }
      var modifiedSince := None;
      if options.jobType == RESYNC && watermark.Some? {
        modifiedSince := Some(watermark.value - RESYNC_BUFFER);
        if mailSinceDate.None? {
          mailSinceDate := modifiedSince;
        }
      }
      if world.clientRaises {
        return Raised;
      }
      exit := Finished;
      if options.migrateMail {
        exit := MigrateMail(world, mailSinceDate);
      }
      if exit == Finished {
        exit := MigrateObjects(world, modifiedSince);
      }
    }

    /**
     `run`: a job that is not pending is left alone. A cancel may land at any time after the start, also
     before the first event. A run that won its start leaves a terminal status
     and a finish time exactly when the calls on its row go through, whatever else raises; otherwise
     the row stays RUNNING unless a cancel lands. The watermark moves exactly when all enabled passes
     finished in a run that is not a dry run and the last commit went through.
     */
    method Run(now: int, later: int, world: Surroundings)
      requires Valid() && WellFormed(world)
      modifies this
      ensures Valid()
      ensures old(status) != PENDING || !world.calls.started ==> unchanged(this)
      ensures old(status) == PENDING ==>
                log == RunLog(init, old(log), options, world, old(mailSinceDate), cancelAt, now)
      ensures old(status) == PENDING && world.calls.started ==>
                var exit := JobTrace(init, old(log), options, world, old(mailSinceDate), cancelAt).exit;
                var calls := world.calls;
                var completes := exit == Finished && calls.completionWritten;
                && startedAt == Some(now)
                && mailSinceDate == (if !calls.refreshed || world.setupRaises then old(mailSinceDate)
                                     else MailSince(old(mailSinceDate), ModifiedSince(options, old(watermark))))
                && watermark == (if calls.refreshed && calls.committed && completes && !options.dryRun then Some(now)
                                 else old(watermark))
                && finishedAt == (if calls.refreshed && calls.committed then Some(later) else old(finishedAt))
                && CurrentStatus() == (if CancelledBy(cancelAt, |log|) then CANCELLED
                                       else if !calls.refreshed || !calls.committed then RUNNING
                                       else if completes then COMPLETED
                                       else if calls.failureWritten then FAULTED
                                       else RUNNING)
      ensures old(status) == PENDING && old(finishedAt) != Some(later) ==>
                var exit := JobTrace(init, old(log), options, world, old(mailSinceDate), cancelAt).exit;
                var calls := world.calls;
                CurrentStatus() in {COMPLETED, FAULTED, CANCELLED} && finishedAt == Some(later)
                <==> calls.started && calls.refreshed && calls.committed
                     && (CancelledBy(cancelAt, |log|)
                         || (exit == Finished && calls.completionWritten) || calls.failureWritten)
      ensures old(status) == PENDING && world.calls == RowCalls(true, true, true, true, true) ==>
                CurrentStatus() in {COMPLETED, FAULTED, CANCELLED} && finishedAt == Some(later)
      ensures old(status) == PENDING && world.calls.started && world.calls.refreshed && world.calls.failureWritten
              && world.calls.committed && cancelAt == None
              && JobTrace(init, old(log), options, world, old(mailSinceDate), None).exit == Raised ==>
                CurrentStatus() == FAULTED && finishedAt == Some(later) && watermark == old(watermark)
    {
      hide Replay, JobTrace;
      if status != PENDING || !world.calls.started {
        return;
      }
      status, startedAt := RUNNING, Some(now);
      if !world.calls.refreshed {
        return;
      }
      var exit := Migrate(world);
      JobCancelSeen(init, old(log), options, world, old(mailSinceDate), cancelAt);
      Conclude(exit, world.calls, later);
    }

    /**
     The guarded terminal update, the watermark and the finish time, all in the commit that ends the
     run. When the completion cannot be written, a rollback drops the watermark.
     */
    method Conclude(exit: Exit, calls: RowCalls, later: int)
      requires Valid() && status == RUNNING && startedAt.Some?
      requires exit == CancelSeen ==> CancelledBy(cancelAt, |log|)
      modifies `status, `watermark, `finishedAt, `log
      ensures Valid()
      ensures var moves := exit == Finished && calls.completionWritten && calls.committed && !options.dryRun;
              && log == old(log) + (if moves then [WatermarkSet(startedAt.value)] else [])
              && watermark == (if moves then startedAt else old(watermark))
      ensures finishedAt == if calls.committed then Some(later) else old(finishedAt)
      ensures CurrentStatus() == if CancelledBy(cancelAt, |log|) then CANCELLED
                                 else if !calls.committed then RUNNING
                                 else if exit == Finished && calls.completionWritten then COMPLETED
                                 else if calls.failureWritten then FAULTED
                                 else RUNNING
    {
      hide Replay;
      var completes := exit == Finished && calls.completionWritten;
      var fails := !completes && exit != CancelSeen && calls.failureWritten;
      if !calls.committed {
        return;
      }
      finishedAt := Some(later);
      if completes && !options.dryRun {
        watermark := startedAt;
        log := log + [WatermarkSet(startedAt.value)];
        ReplayOne(init, old(log), WatermarkSet(startedAt.value));
      }
      if CurrentStatus() == RUNNING {
        status := if completes then COMPLETED else if fails then FAULTED else RUNNING;
      }
    }
  }

  lemma JobCancelSeen(init: Mailbox, log: seq<Event>, options: Options, world: Surroundings,
                      mailSinceDate: Option<int>, cancelAt: Option<nat>)
    requires WellFormed(world)
    ensures var end := JobTrace(init, log, options, world, mailSinceDate, cancelAt);
            end.exit == CancelSeen ==> CancelledBy(cancelAt, |end.events|)
  {
    hide Replay, RunUnits, MailUnits, ObjectUnits;
    var s := Replay(init, log);
    var modifiedSince := ModifiedSince(options, s.watermark);
    var since := MailSince(mailSinceDate, modifiedSince);
    CancelSeenIsReal(s, options.dryRun, MailUnits(world, since), |log|, cancelAt);
    var mail := MailTrace(log, s, options, world, since, cancelAt);
    CancelSeenIsReal(Replay(init, mail.events), options.dryRun, ObjectUnits(options, world, modifiedSince),
                     |mail.events|, cancelAt);
  }

  lemma CalendarStep(calendars: seq<string>, i: nat, world: Surroundings, since: Option<int>, more: seq<Unit>)
    requires i < |calendars|
    ensures CalendarUnits(calendars[i..], world, since) + more
            == ListingUnits(Calendar, "", world.events(calendars[i], since))
               + (CalendarUnits(calendars[i + 1..], world, since) + more)
  {
    assert calendars[i..][1..] == calendars[i + 1..];
  }

  lemma EntryStep(category: Category, path: string, entries: seq<Entry>, i: nat, tail: seq<Unit>)
    requires i < |entries|
    ensures EntryUnits(category, path, entries[i..]) + tail
            == [ItemUnit(ItemOf(category, path, entries[i]), entries[i].script)]
               + (EntryUnits(category, path, entries[i + 1..]) + tail)
  {
    assert entries[i..][1..] == entries[i + 1..];
  }
}
