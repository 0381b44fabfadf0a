/** Which questions a job asks, what stops it, and when its passes can finish. */
module Passes {
  import opened Wrappers
  import opened FolderMapping
  import opened ImportModel
  import opened Runner
  import opened Histories
  import opened Outcomes

  // ---- the questions --------------------------------------------------------

  /** The two worlds differ at most in what they would answer to other questions than these. */
  ghost predicate SameAnswers(a: Surroundings, b: Surroundings, mail: Option<int>, objects: Option<int>) {
    a == b.(messages := a.messages, events := a.events, contacts := a.contacts)
    && a.contacts(objects) == b.contacts(objects)
    && (forall folder: string :: a.messages(folder, mail) == b.messages(folder, mail))
    && (forall calendar: string :: a.events(calendar, objects) == b.events(calendar, objects))
  }

  /** A resync that has a watermark goes back to 15 minutes before it; any other job lists everything. */
  function Bound(jobType: JobType, watermark: Option<int>): Option<int> {
    if jobType == RESYNC && watermark.Some? then Some(watermark.value - 900_000_000) else None
  }

  lemma {:induction false} SameFolderUnits(folders: seq<Folder>, graphPaths: map<string, string>,
                                           paths: map<string, string>, a: Surroundings, b: Surroundings,
                                           mail: Option<int>, objects: Option<int>)
    requires forall f :: f in folders ==> f.id in graphPaths && f.id in paths
    requires SameAnswers(a, b, mail, objects)
    ensures FolderUnits(folders, graphPaths, paths, a, mail) == FolderUnits(folders, graphPaths, paths, b, mail)
  {
    hide ListingUnits;
    if |folders| > 0 {
      SameFolderUnits(folders[1..], graphPaths, paths, a, b, mail, objects);
    }
  }

  lemma {:induction false} SameCalendarUnits(calendars: seq<string>, a: Surroundings, b: Surroundings,
                                             mail: Option<int>, objects: Option<int>)
    requires SameAnswers(a, b, mail, objects)
    ensures CalendarUnits(calendars, a, objects) == CalendarUnits(calendars, b, objects)
  {
    hide ListingUnits;
    if |calendars| > 0 {
      SameCalendarUnits(calendars[1..], a, b, mail, objects);
    }
  }

  lemma SameMailUnits(a: Surroundings, b: Surroundings, mail: Option<int>, objects: Option<int>)
    requires WellFormed(a) && WellFormed(b) && SameAnswers(a, b, mail, objects)
    ensures MailUnits(a, mail) == MailUnits(b, mail)
  {
    hide FolderUnits, PlainPath;
    if a.folders.Some? {
      var folders := a.folders.value;
      SameFolderUnits(folders, PathMap(folders, GraphNaming), PathMap(folders, ImapNaming(a.delimiter)), a, b, mail,
                      objects);
    }
  }

  lemma SameObjectUnits(options: Options, a: Surroundings, b: Surroundings, mail: Option<int>, objects: Option<int>)
    requires SameAnswers(a, b, mail, objects)
    ensures ObjectUnits(options, a, objects) == ObjectUnits(options, b, objects)
  {
    hide CalendarUnits, ListingUnits;
    if a.calendars.Some? {
      SameCalendarUnits(a.calendars.value, a, b, mail, objects);
    }
  }

  /**
   All that a job does is settled by the answers to these questions: messages since the job's own date or
   else the resync bound, events and contacts since the resync bound.
   */
  lemma AsksOnly(s: Mailbox, options: Options, a: Surroundings, b: Surroundings, mailSinceDate: Option<int>,
                 cancelAt: Option<nat>)
    requires WellFormed(a) && WellFormed(b)
    requires var objects := Bound(options.jobType, s.watermark);
             SameAnswers(a, b, if mailSinceDate.Some? then mailSinceDate else objects, objects)
    ensures JobTrace(s, [], options, a, mailSinceDate, cancelAt) == JobTrace(s, [], options, b, mailSinceDate, cancelAt)
  {
    hide Future, MailUnits, ObjectUnits, Replay;
    ReplayQuiet(s);
    var objects := Bound(options.jobType, s.watermark);
    var mail := if mailSinceDate.Some? then mailSinceDate else objects;
    assert ModifiedSince(options, s.watermark) == objects && MailSince(mailSinceDate, objects) == mail;
    SameMailUnits(a, b, mail, objects);
    SameObjectUnits(options, a, b, mail, objects);
  }

  // ---- the paths ------------------------------------------------------------

  lemma {:induction false} FolderUnitPaths(folders: seq<Folder>, graphPaths: map<string, string>,
                                           paths: map<string, string>, world: Surroundings, since: Option<int>,
                                           u: Unit)
    requires forall f :: f in folders ==> f.id in graphPaths && f.id in paths
    requires u in FolderUnits(folders, graphPaths, paths, world, since) && u.FolderUnit?
    ensures (exists f :: f in folders && f.id == u.id) && u.graphPath == graphPaths[u.id] && u.path == paths[u.id]
  {
    hide ListingUnits;
    var id := folders[0].id;
    ListingNoFolder(Mail, paths[id], world.messages(id, since));
    if u in FolderUnits(folders[1..], graphPaths, paths, world, since) {
      FolderUnitPaths(folders[1..], graphPaths, paths, world, since, u);
    }
  }

  lemma {:induction false} EntriesNoFolder(category: Category, path: string, entries: seq<Entry>)
    ensures forall u :: u in EntryUnits(category, path, entries) ==> u.ItemUnit?
  {
    if |entries| > 0 {
      EntriesNoFolder(category, path, entries[1..]);
    }
  }

  lemma ListingNoFolder(category: Category, path: string, listing: Listing)
    ensures forall u :: u in ListingUnits(category, path, listing) ==> !u.FolderUnit?
  {
    EntriesNoFolder(category, path, listing.entries);
  }

  lemma {:induction false} CalendarsNoFolder(calendars: seq<string>, world: Surroundings, since: Option<int>)
    ensures forall u :: u in CalendarUnits(calendars, world, since) ==> !u.FolderUnit?
  {
    hide ListingUnits;
    if |calendars| > 0 {
      ListingNoFolder(Calendar, "", world.events(calendars[0], since));
      CalendarsNoFolder(calendars[1..], world, since);
    }
  }

  /** A folder is worked on under its path of display names and its path on the target. */
  lemma FoldersHaveTheirPaths(s: Mailbox, options: Options, world: Surroundings, mailSinceDate: Option<int>, u: Unit)
    requires WellFormed(world) && u in JobUnits(s, options, world, mailSinceDate) && u.FolderUnit?
    ensures world.folders.Some? && u.id in ById(world.folders.value)
    ensures u.graphPath == PlainPath(ById(world.folders.value), GraphNaming, u.id)
    ensures u.path == PlainPath(ById(world.folders.value), ImapNaming(world.delimiter), u.id)
  {
    hide FolderUnits, CalendarUnits, ListingUnits, PlainPath;
    var objects := ModifiedSince(options, s.watermark);
    ListingNoFolder(Contacts, "", world.contacts(objects));
    if world.calendars.Some? {
      CalendarsNoFolder(world.calendars.value, world, objects);
    }
    if world.folders.Some? && u in MailUnits(world, MailSince(mailSinceDate, objects)) {
      var folders := world.folders.value;
      FolderUnitPaths(folders, PathMap(folders, GraphNaming), PathMap(folders, ImapNaming(world.delimiter)), world,
                      MailSince(mailSinceDate, objects), u);
    }
  }

  // ---- what stops a job -----------------------------------------------------

  /** A login that fails three times, or a folder listing that raises, ends the job before it has done anything. */
  lemma MailFaultStops(s: Mailbox, options: Options, world: Surroundings, mailSinceDate: Option<int>,
                       cancelAt: Option<nat>)
    requires WellFormed(world) && options.migrateMail
    requires (!world.connects[0] && !world.connects[1] && !world.connects[2]) || world.folders.None?
    ensures JobTrace(s, [], options, world, mailSinceDate, cancelAt) == Trace([], Raised)
  {
    hide Replay;
    assert MailUnits(world, MailSince(mailSinceDate, ModifiedSince(options, s.watermark))) == [Fault];
  }

  /** When the calendars cannot be listed, the job does what it would do without calendars and contacts, and raises. */
  lemma CalendarFaultStops(s: Mailbox, options: Options, world: Surroundings, mailSinceDate: Option<int>,
                           cancelAt: Option<nat>)
    requires WellFormed(world) && options.migrateCalendar && world.calendars.None?
    ensures var job := JobTrace(s, [], options, world, mailSinceDate, cancelAt);
            var mailOnly := options.(migrateCalendar := false, migrateContacts := false);
            job.events == JobTrace(s, [], mailOnly, world, mailSinceDate, cancelAt).events && job.exit != Finished
  {
    hide MailTrace, Replay;
    ReplayQuiet(s);
    if !world.setupRaises && !world.clientRaises {
      var modifiedSince := ModifiedSince(options, s.watermark);
      var since := MailSince(mailSinceDate, modifiedSince);
      SameMailTrace(s, options, world, since, cancelAt);
      var mail := MailTrace([], s, options, world, since, cancelAt);
      assert ObjectUnits(options, world, modifiedSince)[0] == Fault;
      assert mail.events + [] == mail.events;
    }
  }

  lemma SameMailTrace(s: Mailbox, options: Options, world: Surroundings, since: Option<int>, cancelAt: Option<nat>)
    requires WellFormed(world)
    ensures MailTrace([], s, options.(migrateCalendar := false, migrateContacts := false), world, since, cancelAt)
            == MailTrace([], s, options, world, since, cancelAt)
  {
  }

  // ---- when the passes can finish -------------------------------------------

  /** No call raises outside the loop bodies: setup, login, the listings, and the close of the connection. */
  ghost predicate NothingRaises(s: Mailbox, options: Options, world: Surroundings, mailSinceDate: Option<int>) {
    var objects := Bound(options.jobType, s.watermark);
    var mail := if mailSinceDate.Some? then mailSinceDate else objects;
    && !world.setupRaises && !world.clientRaises
    && (options.migrateMail ==>
          (world.connects[0] || world.connects[1] || world.connects[2]) && world.folders.Some? && !world.closeRaises
          && forall f :: f in world.folders.value ==> !world.messages(f.id, mail).raises)
    && (options.migrateCalendar ==>
          world.calendars.Some? && forall c :: c in world.calendars.value ==> !world.events(c, objects).raises)
    && (options.migrateContacts ==> !world.contacts(objects).raises)
  }

  lemma {:induction false} EntriesNoFault(category: Category, path: string, entries: seq<Entry>)
    ensures Fault !in EntryUnits(category, path, entries)
  {
    if |entries| > 0 {
      EntriesNoFault(category, path, entries[1..]);
    }
  }

  lemma ListingFault(category: Category, path: string, listing: Listing)
    ensures Fault in ListingUnits(category, path, listing) <==> listing.raises
  {
    EntriesNoFault(category, path, listing.entries);
    assert Fault in [Fault];
  }

  lemma {:induction false} FoldersFault(folders: seq<Folder>, graphPaths: map<string, string>,
                                        paths: map<string, string>, world: Surroundings, since: Option<int>)
    requires forall f :: f in folders ==> f.id in graphPaths && f.id in paths
    ensures Fault in FolderUnits(folders, graphPaths, paths, world, since)
            <==> exists f :: f in folders && world.messages(f.id, since).raises
  {
    hide ListingUnits;
    if |folders| > 0 {
      ListingFault(Mail, paths[folders[0].id], world.messages(folders[0].id, since));
      FoldersFault(folders[1..], graphPaths, paths, world, since);
      assert folders == [folders[0]] + folders[1..];
      assert folders[0] in folders;
    }
  }

  lemma {:induction false} CalendarsFault(calendars: seq<string>, world: Surroundings, since: Option<int>)
    ensures Fault in CalendarUnits(calendars, world, since)
            <==> exists c :: c in calendars && world.events(c, since).raises
  {
    hide ListingUnits;
    if |calendars| > 0 {
      ListingFault(Calendar, "", world.events(calendars[0], since));
      CalendarsFault(calendars[1..], world, since);
      assert calendars == [calendars[0]] + calendars[1..];
      assert calendars[0] in calendars;
    }
  }

  lemma MailFault(world: Surroundings, since: Option<int>)
    requires WellFormed(world)
    ensures Fault in MailUnits(world, since)
            <==> (!world.connects[0] && !world.connects[1] && !world.connects[2]) || world.folders.None?
                 || exists f :: f in world.folders.value && world.messages(f.id, since).raises
  {
    hide FolderUnits, PlainPath;
    assert Fault in [Fault];
    if world.folders.Some? {
      var folders := world.folders.value;
      FoldersFault(folders, PathMap(folders, GraphNaming), PathMap(folders, ImapNaming(world.delimiter)), world, since);
    }
  }

  lemma ObjectFault(options: Options, world: Surroundings, since: Option<int>)
    ensures Fault in ObjectUnits(options, world, since)
            <==> (options.migrateCalendar
                  && (world.calendars.None? || exists c :: c in world.calendars.value && world.events(c, since).raises))
                 || (options.migrateContacts && world.contacts(since).raises)
  {
    hide CalendarUnits, ListingUnits;
    assert Fault in [Fault];
    ListingFault(Contacts, "", world.contacts(since));
    if world.calendars.Some? {
      CalendarsFault(world.calendars.value, world, since);
    }
  }

  lemma NoFaultExactly(s: Mailbox, options: Options, world: Surroundings, mailSinceDate: Option<int>)
    requires WellFormed(world)
    ensures Fault !in JobUnits(s, options, world, mailSinceDate) <==> NothingRaises(s, options, world, mailSinceDate)
  {
    hide MailUnits, ObjectUnits;
    var objects := ModifiedSince(options, s.watermark);
    assert Fault in [Fault];
    MailFault(world, MailSince(mailSinceDate, objects));
    ObjectFault(options, world, objects);
  }

  /** A job finishes only when none of them raises; it does so when, besides, no unit raises and no cancel lands. */
  lemma FinishesExactly(s: Mailbox, options: Options, world: Surroundings, mailSinceDate: Option<int>,
                        cancelAt: Option<nat>)
    requires WellFormed(world)
    ensures JobTrace(s, [], options, world, mailSinceDate, cancelAt).exit == Finished ==>
              NothingRaises(s, options, world, mailSinceDate)
    ensures NothingRaises(s, options, world, mailSinceDate) && cancelAt == None
            && NoUnitRaises(s, options.dryRun, JobUnits(s, options, world, mailSinceDate)) ==>
              JobTrace(s, [], options, world, mailSinceDate, cancelAt).exit == Finished
  {
    hide JobTrace, JobUnits, RunUnits, NothingRaises;
    var units := JobUnits(s, options, world, mailSinceDate);
    NoFaultExactly(s, options, world, mailSinceDate);
    JobAsOneRun(s, options, world, mailSinceDate, cancelAt);
    if RunUnits(s, options.dryRun, units, 0, cancelAt).exit == Finished {
      FinishedHasNoFault(s, options.dryRun, units, 0, cancelAt);
    }
    if Fault !in units && NoUnitRaises(s, options.dryRun, units) {
      RunsThrough(s, options.dryRun, units, 0);
    }
  }

  ghost predicate NoUnitRaises(s: Mailbox, dryRun: bool, units: seq<Unit>)
    decreases |units|
  {
    |units| == 0 || units[0].Fault?
    || (!UnitBlock(s, dryRun, units[0]).raised
        && NoUnitRaises(Replay(s, [Checked(false)] + UnitBlock(s, dryRun, units[0]).events), dryRun, units[1..]))
  }

  lemma {:induction false} RunsThrough(s: Mailbox, dryRun: bool, units: seq<Unit>, clock: nat)
    requires Fault !in units && NoUnitRaises(s, dryRun, units)
    ensures RunUnits(s, dryRun, units, clock, None).exit == Finished
    decreases |units|
  {
    hide UnitBlock, Replay;
    if |units| > 0 {
      assert units[0] in units;
      var events := [Checked(false)] + UnitBlock(s, dryRun, units[0]).events;
      RunsThrough(Replay(s, events), dryRun, units[1..], clock + |events|);
    }
  }
}
