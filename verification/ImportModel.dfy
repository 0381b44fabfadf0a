/**
 What one migration job does to a mailbox's rows and to its target, as a sequence of events
 (app/jobs/runner.py, app/db/repositories.py). Every database commit and every effect on the
 target is one event, so that a crash may fall between any two of them.
 */
module ImportModel {
  import opened Wrappers

  const MAX_ITEM_RETRIES: nat := 3

  // ---- rows and target ------------------------------------------------------

  datatype Category = Mail | Calendar | Contacts

  /** The unique key of an item row within its mapping. */
  datatype Key = Key(category: Category, externalId: string)

  datatype ItemStatus = DONE | FAILED

  datatype ItemRow = ItemRow(status: ItemStatus, sourceModifiedAt: Option<int>)

  datatype FolderRow = FolderRow(graphPath: string, imapName: string, created: bool)

  datatype Counter = Created | Updated | Skipped | Failures

  datatype Counters = Counters(created: nat, updated: nat, skipped: nat, failed: nat)
  {
    function Total(): nat { created + updated + skipped + failed }

    function Increment(counter: Counter): Counters {
      match counter
      case Created => this.(created := created + 1)
      case Updated => this.(updated := updated + 1)
      case Skipped => this.(skipped := skipped + 1)
      case Failures => this.(failed := failed + 1)
    }
  }

  /**
   The rows of one mapping, its watermark, the counters of its job, and the target mailbox:
   the IMAP folders that exist, one entry per stored copy of a message, and the version stamp
   each calendar or contact object was made from.
   */
  datatype Mailbox = Mailbox(
    items: map<Key, ItemRow>,
    folders: map<string, FolderRow>,
    counters: Counters,
    watermark: Option<int>,
    imapFolders: set<string>,
    messages: multiset<string>,
    objects: map<Key, int>
  )

  datatype Event =
    | Checked(cancelled: bool)
    | FolderInserted(folderId: string, graphPath: string, imapName: string)
    | FolderEnsured(folderId: string, path: string)
    | FolderMarked(folderId: string)
    | Appended(path: string, messageId: string)
    | Stored(key: Key, stamp: int)
    | RowDone(key: Key, rowStamp: Option<int>)
    | RowFailed(key: Key)
    | Counted(key: Key, counter: Counter)
    | WatermarkSet(at: int)
    | RunEnded

  function Row(s: Mailbox, key: Key): Option<ItemRow> {
    if key in s.items then Some(s.items[key]) else None
  }

  function DoneRow(row: Option<ItemRow>, stamp: Option<int>): ItemRow {
    ItemRow(DONE, if stamp.Some? then stamp else if row.Some? then row.value.sourceModifiedAt else None)
  }

  function FailedRow(row: Option<ItemRow>): ItemRow {
    ItemRow(FAILED, if row.Some? then row.value.sourceModifiedAt else None)
  }

  function Apply(s: Mailbox, e: Event): Mailbox {
    match e
    case Checked(_) => s
    case FolderInserted(id, graphPath, imapName) =>
      s.(folders := s.folders[id := FolderRow(graphPath, imapName, false)])
    case FolderEnsured(_, path) => s.(imapFolders := s.imapFolders + {path})
    case FolderMarked(id) =>
      if id in s.folders then s.(folders := s.folders[id := s.folders[id].(created := true)]) else s
    case Appended(_, id) => s.(messages := s.messages + multiset{id})
    case Stored(key, stamp) => s.(objects := s.objects[key := stamp])
    case RowDone(key, stamp) => s.(items := s.items[key := DoneRow(Row(s, key), stamp)])
    case RowFailed(key) => s.(items := s.items[key := FailedRow(Row(s, key))])
    case Counted(_, counter) => s.(counters := s.counters.Increment(counter))
    case WatermarkSet(at) => s.(watermark := Some(at))
    case RunEnded => s
  }

  function Replay(s: Mailbox, events: seq<Event>): Mailbox {
    if |events| == 0 then s
    else Apply(Replay(s, events[..|events| - 1]), events[|events| - 1])
  }

  lemma ReplayOne(s: Mailbox, events: seq<Event>, e: Event)
    ensures Replay(s, events + [e]) == Apply(Replay(s, events), e)
  {
    assert (events + [e])[..|events|] == events;
  }

  lemma {:induction false} ReplayConcat(s: Mailbox, first: seq<Event>, second: seq<Event>)
    ensures Replay(s, first + second) == Replay(Replay(s, first), second)
  {
    if |second| == 0 {
      assert first + second == first;
    } else {
      var init, last := second[..|second| - 1], second[|second| - 1];
      ReplayConcat(s, first, init);
      ReplayOne(s, first + init, last);
      assert first + second == first + init + [last];
    }
  }

  lemma ReplayFront(s: Mailbox, log: seq<Event>)
    requires |log| > 0
    ensures Replay(s, log) == Replay(Apply(s, log[0]), log[1..])
  {
    assert [log[0]] + log[1..] == log;
    ReplayConcat(s, [log[0]], log[1..]);
    ReplayOne(s, [], log[0]);
    assert [] + [log[0]] == [log[0]];
  }

  lemma ReplayQuiet(s: Mailbox)
    ensures Replay(s, []) == s && Replay(s, [Checked(true)]) == s && Replay(s, [Checked(false)]) == s
  {
  }

  lemma ReplayThree(s: Mailbox, a: Event, b: Event, c: Event)
    ensures Replay(s, [a, b, c]) == Apply(Apply(Apply(s, a), b), c)
  {
    ReplayOne(s, [], a);
    assert [] + [a] == [a];
    ReplayOne(s, [a], b);
    assert [a] + [b] == [a, b];
    ReplayOne(s, [a, b], c);
    assert [a, b] + [c] == [a, b, c];
  }

  // ---- one item -------------------------------------------------------------

  /** A listed message, event or contact; events and contacts carry the stamp of their last change. */
  datatype Item =
    | Message(id: string, path: string)
    | EventItem(uid: string, stamp: int)
    | Contact(id: string, stamp: int)
  {
    function ItemKey(): Key {
      match this
      case Message(id, _) => Key(Mail, id)
      case EventItem(uid, _) => Key(Calendar, uid)
      case Contact(id, _) => Key(Contacts, id)
    }

    function Stamp(): Option<int> {
      if Message? then None else Some(stamp)
    }

    /** What an import that takes effect does to the target: APPEND adds a copy, PUT overwrites. */
    function Effect(): Event {
      match this
      case Message(id, path) => Appended(path, id)
      case _ => Stored(ItemKey(), stamp)
    }

    /** An item with a row, even one that only ever failed, counts as an update; a message never does. */
    function SuccessCounter(hasRow: bool): Counter {
      if hasRow && !Message? then Updated else Created
    }
  }

  function NeedsImport(row: Option<ItemRow>, stamp: Option<int>): bool {
    match row
    case None => true
    case Some(item) =>
      item.status == FAILED ||
      (stamp.Some? && item.sourceModifiedAt.Some? && stamp.value > item.sourceModifiedAt.value)
  }

  /**
   How an attempt goes: it raises before the target changes, it changes the target but raises
   before the success row is committed (a lost acknowledgement, an APPEND answered without
   APPENDUID, a failed commit), or it succeeds and commits the row.
   */
  datatype Attempt = NoEffect | EffectOnly | Succeeds

  type Attempts = tries: seq<Attempt> | |tries| == MAX_ITEM_RETRIES witness [NoEffect, NoEffect, NoEffect]

  type Commits = tries: seq<bool> | |tries| == MAX_ITEM_RETRIES witness [true, true, true]

  /** The outcomes one item meets: of its attempts, of `record_failure`, and of the counter commit. */
  datatype Script = Script(attempts: Attempts, failureRecorded: bool, commits: Commits)

  datatype Block = Block(events: seq<Event>, raised: bool)

  /** The events of the attempts; `raised` says that none of them succeeded. */
  function Tries(attempts: seq<Attempt>, effect: Event, done: Event): Block {
    if |attempts| == 0 then Block([], true)
    else if attempts[0] == Succeeds then Block([effect, done], false)
    else
      var rest := Tries(attempts[1..], effect, done);
      if attempts[0] == EffectOnly then Block([effect] + rest.events, rest.raised) else rest
  }

  /** The attempts log nothing but their effect and, last, the success row if one of them succeeds. */
  lemma {:induction false} TriesEvents(attempts: seq<Attempt>, effect: Event, done: Event)
    ensures var tried := Tries(attempts, effect, done);
            && (forall e :: e in tried.events ==> e == effect || e == done)
            && (tried.raised <==> Succeeds !in attempts)
            && (!tried.raised ==> |tried.events| > 0 && tried.events[|tried.events| - 1] == done)
    decreases |attempts|
  {
    if |attempts| > 0 {
      TriesEvents(attempts[1..], effect, done);
      assert attempts == [attempts[0]] + attempts[1..];
    }
  }

  /**
   The commit of the counters. A first attempt that fails is rolled back, which discards the
   pending increment, so a later one that succeeds commits nothing.
   */
  function CounterBlock(key: Key, counter: Counter, commits: Commits): Block {
    if commits[0] then Block([Counted(key, counter)], false)
    else Block([], !commits[1] && !commits[2])
  }

  function ItemBlock(s: Mailbox, dryRun: bool, item: Item, script: Script): Block {
    var key, row := item.ItemKey(), Row(s, item.ItemKey());
    var success := item.SuccessCounter(row.Some?);
    if !NeedsImport(row, item.Stamp()) then CounterBlock(key, Skipped, script.commits)
    else if dryRun then CounterBlock(key, success, script.commits)
    else
      var tried := Tries(script.attempts, item.Effect(), RowDone(key, item.Stamp()));
      if !tried.raised then
        var count := CounterBlock(key, success, script.commits);
        Block(tried.events + count.events, count.raised)
      else if !script.failureRecorded then tried
      else
        var count := CounterBlock(key, Failures, script.commits);
        Block(tried.events + [RowFailed(key)] + count.events, count.raised)
  }

  // ---- one folder -----------------------------------------------------------

  /** The insert of the folder row, and the creation of the mailbox with the commit of its mark. */
  datatype FolderScript = FolderScript(inserted: bool, ensured: Attempt)

  function EnsureEvents(id: string, path: string, ensured: Attempt): Block {
    match ensured
    case NoEffect => Block([], true)
    case EffectOnly => Block([FolderEnsured(id, path)], true)
    case Succeeds => Block([FolderEnsured(id, path), FolderMarked(id)], false)
  }

  function FolderBlock(s: Mailbox, dryRun: bool, id: string, graphPath: string, path: string,
                       script: FolderScript): Block {
    if id in s.folders then
      if s.folders[id].created || dryRun then Block([], false) else EnsureEvents(id, path, script.ensured)
    else if !script.inserted then Block([], true)
    else if dryRun then Block([FolderInserted(id, graphPath, path)], false)
    else
      var rest := EnsureEvents(id, path, script.ensured);
      Block([FolderInserted(id, graphPath, path)] + rest.events, rest.raised)
  }

  // ---- a run ----------------------------------------------------------------

  /** The work of the loops in order; a Fault is an external listing call that raises. */
  datatype Unit =
    | FolderUnit(id: string, graphPath: string, path: string, folderScript: FolderScript)
    | ItemUnit(item: Item, script: Script)
    | Fault

  function UnitBlock(s: Mailbox, dryRun: bool, unit: Unit): Block {
    match unit
    case FolderUnit(id, graphPath, path, script) => FolderBlock(s, dryRun, id, graphPath, path, script)
    case ItemUnit(item, script) => ItemBlock(s, dryRun, item, script)
    case Fault => Block([], true)
  }

  datatype Exit = Finished | CancelSeen | Raised

  datatype Trace = Trace(events: seq<Event>, exit: Exit)

  /** A cancel that lands at time `n` is visible once `n` events have happened. */
  predicate CancelledBy(cancelAt: Option<nat>, clock: nat) {
    cancelAt.Some? && cancelAt.value <= clock
  }

  /** Before every unit the job row is read again; a cancelled one ends the run. */
  function RunUnits(s: Mailbox, dryRun: bool, units: seq<Unit>, clock: nat, cancelAt: Option<nat>): Trace
    decreases |units|
  {
    if |units| == 0 then Trace([], Finished)
    else if units[0].Fault? then Trace([], Raised)
    else if CancelledBy(cancelAt, clock) then Trace([Checked(true)], CancelSeen)
    else
      var block := UnitBlock(s, dryRun, units[0]);
      var events := [Checked(false)] + block.events;
      if block.raised then Trace(events, Raised)
      else
        var rest := RunUnits(Replay(s, events), dryRun, units[1..], clock + |events|, cancelAt);
        Trace(events + rest.events, rest.exit)
  }

  /** What a log will hold, and how the run will exit, once `units` are done. */
  function Future(log: seq<Event>, s: Mailbox, dryRun: bool, units: seq<Unit>, cancelAt: Option<nat>): Trace {
    var rest := RunUnits(s, dryRun, units, |log|, cancelAt);
    Trace(log + rest.events, rest.exit)
  }

  /** Doing the first unit does not change the future. */
  lemma FutureStep(log: seq<Event>, s: Mailbox, dryRun: bool, unit: Unit, more: seq<Unit>, cancelAt: Option<nat>)
    requires !unit.Fault? && !CancelledBy(cancelAt, |log|)
    ensures var block := UnitBlock(s, dryRun, unit);
            var now := log + [Checked(false)] + block.events;
            Future(log, s, dryRun, [unit] + more, cancelAt)
            == if block.raised then Trace(now, Raised)
               else Future(now, Replay(Replay(s, [Checked(false)]), block.events), dryRun, more, cancelAt)
  {
    hide Replay, UnitBlock;
    var block := UnitBlock(s, dryRun, unit);
    var events := [Checked(false)] + block.events;
    var now := log + [Checked(false)] + block.events;
    assert ([unit] + more)[1..] == more;
    assert now == log + events;
    ReplayConcat(s, [Checked(false)], block.events);
    if !block.raised {
      var rest := RunUnits(Replay(s, events), dryRun, more, |log| + |events|, cancelAt);
      assert log + (events + rest.events) == now + rest.events;
    }
  }

  /** A run stops for a cancel only when one has landed. */
  lemma {:induction false} CancelSeenIsReal(s: Mailbox, dryRun: bool, units: seq<Unit>, clock: nat,
                                            cancelAt: Option<nat>)
    ensures var t := RunUnits(s, dryRun, units, clock, cancelAt);
            t.exit == CancelSeen ==> CancelledBy(cancelAt, clock + |t.events|)
    decreases |units|
  {
    hide UnitBlock;
    if |units| > 0 && !units[0].Fault? && !CancelledBy(cancelAt, clock) {
      var block := UnitBlock(s, dryRun, units[0]);
      var events := [Checked(false)] + block.events;
      CancelSeenIsReal(Replay(s, events), dryRun, units[1..], clock + |events|, cancelAt);
    }
  }
}
