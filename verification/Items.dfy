/** What becomes of one item or one folder, for every state it is met in and all outcomes of the calls. */
module Items {
  import opened Wrappers
  import opened ImportModel
  import opened Outcomes

  // ---- one item -------------------------------------------------------------

  function KeyOf(item: Item): Key {
    match item
    case Message(id, _) => Key(Mail, id)
    case EventItem(uid, _) => Key(Calendar, uid)
    case Contact(id, _) => Key(Contacts, id)
  }

  /** There is nothing to do: the row is DONE, and the version listed is not newer than the one stored. */
  predicate UpToDate(s: Mailbox, item: Item) {
    var key := KeyOf(item);
    key in s.items && s.items[key].status == DONE
    && (item.Message? || s.items[key].sourceModifiedAt.None? || item.stamp <= s.items[key].sourceModifiedAt.value)
  }

  /** How many of the attempts change the target, up to the first that succeeds. */
  function Effects(attempts: Attempts): nat {
    (if attempts[0] == NoEffect then 0 else 1)
    + (if attempts[0] == Succeeds || attempts[1] == NoEffect then 0 else 1)
    + (if attempts[0] == Succeeds || attempts[1] == Succeeds || attempts[2] == NoEffect then 0 else 1)
  }

  function StoredStamp(s: Mailbox, key: Key): Option<int> {
    if key in s.items then s.items[key].sourceModifiedAt else None
  }

  /** Mail: one more copy for each attempt that took effect. Events and contacts: the version listed. */
  ghost predicate TargetAfter(s: Mailbox, item: Item, effects: nat, end: Mailbox) {
    match item
    case Message(id, _) =>
      end.objects == s.objects && end.messages == s.messages[id := s.messages[id] + effects]
    case _ =>
      end.messages == s.messages
      && end.objects == if effects > 0 then s.objects[KeyOf(item) := item.stamp] else s.objects
  }

  /** A success makes the row DONE with the stamp listed, three failures make it FAILED; both may keep a stamp. */
  ghost predicate RowAfter(s: Mailbox, item: Item, script: Script, end: Mailbox) {
    var key := KeyOf(item);
    if Succeeds in script.attempts then
      end.items == s.items[key := ItemRow(DONE, if item.Message? then StoredStamp(s, key) else Some(item.stamp))]
    else if script.failureRecorded then end.items == s.items[key := ItemRow(FAILED, StoredStamp(s, key))]
    else end.items == s.items
  }

  /** Only the first commit carries the increment. */
  ghost predicate CountersAfter(s: Mailbox, dryRun: bool, item: Item, script: Script, end: Mailbox) {
    var c := s.counters;
    if !script.commits[0] then end.counters == c
    else if UpToDate(s, item) then end.counters == c.(skipped := c.skipped + 1)
    else if dryRun || Succeeds in script.attempts then
      end.counters == if KeyOf(item) in s.items && !item.Message? then c.(updated := c.updated + 1)
                      else c.(created := c.created + 1)
    else if script.failureRecorded then end.counters == c.(failed := c.failed + 1)
    else end.counters == c
  }

  /**
   One listed item: rows, target and counters afterwards. It raises when the failure cannot be recorded
   or none of the three commits of the counter goes through.
   */
  lemma ItemExactly(s: Mailbox, dryRun: bool, item: Item, script: Script)
    ensures var block := ItemBlock(s, dryRun, item, script);
            var end := Replay(s, block.events);
            var tried := !dryRun && !UpToDate(s, item);
            && (if tried then TargetAfter(s, item, Effects(script.attempts), end) && RowAfter(s, item, script, end)
                else end.messages == s.messages && end.objects == s.objects && end.items == s.items)
            && CountersAfter(s, dryRun, item, script, end)
            && end.folders == s.folders && end.imapFolders == s.imapFolders && end.watermark == s.watermark
            && (block.raised <==>
                  (tried && Succeeds !in script.attempts && !script.failureRecorded)
                  || (!script.commits[0] && !script.commits[1] && !script.commits[2]))
  {
    hide Replay, Tries, CounterBlock, TargetAfter, RowAfter;
    var key := item.ItemKey();
    var done := RowDone(key, item.Stamp());
    var success := item.SuccessCounter(Row(s, key).Some?);
    CounterEnds(s, key, Skipped, script.commits);
    CounterEnds(s, key, success, script.commits);
    CounterEnds(s, key, Failures, script.commits);
    if !dryRun && !UpToDate(s, item) {
      TriesEvents(script.attempts, item.Effect(), done);
      if Succeeds in script.attempts {
        SuccessEnds(s, item, script);
      } else {
        FailureEnds(s, item, script);
      }
    }
  }

  lemma SuccessEnds(s: Mailbox, item: Item, script: Script)
    requires Succeeds in script.attempts
    ensures var tried := Tries(script.attempts, item.Effect(), RowDone(item.ItemKey(), item.Stamp())).events;
            var count := CounterBlock(item.ItemKey(), item.SuccessCounter(KeyOf(item) in s.items),
                                      script.commits).events;
            var end, c := Replay(s, tried + count), s.counters;
            && TargetAfter(s, item, Effects(script.attempts), end) && RowAfter(s, item, script, end)
            && end.folders == s.folders && end.imapFolders == s.imapFolders && end.watermark == s.watermark
            && end.counters == if !script.commits[0] then c
                               else if KeyOf(item) in s.items && !item.Message? then c.(updated := c.updated + 1)
                               else c.(created := c.created + 1)
  {
    hide Replay, Tries, CounterBlock;
    var key := item.ItemKey();
    var tried := Tries(script.attempts, item.Effect(), RowDone(key, item.Stamp())).events;
    var success := item.SuccessCounter(KeyOf(item) in s.items);
    AttemptsEnd(s, item, script.attempts);
    CounterEnds(Replay(s, tried), key, success, script.commits);
    ReplayConcat(s, tried, CounterBlock(key, success, script.commits).events);
  }

  lemma FailureEnds(s: Mailbox, item: Item, script: Script)
    requires Succeeds !in script.attempts
    ensures var key := item.ItemKey();
            var tried := Tries(script.attempts, item.Effect(), RowDone(key, item.Stamp())).events;
            var count := CounterBlock(key, Failures, script.commits).events;
            var end := Replay(s, if script.failureRecorded then tried + [RowFailed(key)] + count else tried);
            var c := s.counters;
            && TargetAfter(s, item, Effects(script.attempts), end) && RowAfter(s, item, script, end)
            && end.folders == s.folders && end.imapFolders == s.imapFolders && end.watermark == s.watermark
            && end.counters == if script.commits[0] && script.failureRecorded then c.(failed := c.failed + 1) else c
  {
    hide Replay, Tries, CounterBlock;
    var key := item.ItemKey();
    var tried := Tries(script.attempts, item.Effect(), RowDone(key, item.Stamp())).events;
    AttemptsEnd(s, item, script.attempts);
    if script.failureRecorded {
      var failed := tried + [RowFailed(key)];
      ReplayOne(s, tried, RowFailed(key));
      CounterEnds(Replay(s, failed), key, Failures, script.commits);
      ReplayConcat(s, failed, CounterBlock(key, Failures, script.commits).events);
    }
  }

  lemma CounterEnds(s: Mailbox, key: Key, counter: Counter, commits: Commits)
    ensures var block, c := CounterBlock(key, counter, commits), s.counters;
            && block.raised == (!commits[0] && !commits[1] && !commits[2])
            && Replay(s, block.events)
               == if !commits[0] then s
                  else match counter
                       case Created => s.(counters := c.(created := c.created + 1))
                       case Updated => s.(counters := c.(updated := c.updated + 1))
                       case Skipped => s.(counters := c.(skipped := c.skipped + 1))
                       case Failures => s.(counters := c.(failed := c.failed + 1))
  {
  }

  /** The state after some attempts. */
  function Tried(s: Mailbox, attempts: seq<Attempt>, effect: Event, done: Event): Mailbox
    decreases |attempts|
  {
    if |attempts| == 0 then s
    else if attempts[0] == Succeeds then Apply(Apply(s, effect), done)
    else Tried(if attempts[0] == EffectOnly then Apply(s, effect) else s, attempts[1..], effect, done)
  }

  lemma {:induction false} TriesReplay(s: Mailbox, attempts: seq<Attempt>, effect: Event, done: Event)
    ensures Replay(s, Tries(attempts, effect, done).events) == Tried(s, attempts, effect, done)
    decreases |attempts|
  {
    hide Apply;
    ReplayQuiet(s);
    FolderReplays(s, effect, effect, done);
    if |attempts| > 0 && attempts[0] != Succeeds {
      var rest := Tries(attempts[1..], effect, done).events;
      TriesReplay(if attempts[0] == EffectOnly then Apply(s, effect) else s, attempts[1..], effect, done);
      ReplayFront(s, [effect] + rest);
      assert ([effect] + rest)[1..] == rest;
    }
  }

  lemma ThreeTried(s: Mailbox, attempts: Attempts, effect: Event, done: Event)
    ensures var one := if attempts[0] == NoEffect then s else Apply(s, effect);
            var two := if attempts[1] == NoEffect then one else Apply(one, effect);
            var three := if attempts[2] == NoEffect then two else Apply(two, effect);
            Tried(s, attempts, effect, done)
            == if attempts[0] == Succeeds then Apply(one, done)
               else if attempts[1] == Succeeds then Apply(two, done)
               else if attempts[2] == Succeeds then Apply(three, done)
               else three
  {
    hide Apply, Tried;
    var rest, last := attempts[1..], attempts[2..];
    assert rest[1..] == last && last[1..] == [] && rest[0] == attempts[1] && last[0] == attempts[2];
    var one := if attempts[0] == NoEffect then s else Apply(s, effect);
    var two := if attempts[1] == NoEffect then one else Apply(one, effect);
    TriedStep(s, attempts, effect, done);
    TriedStep(one, rest, effect, done);
    TriedStep(two, last, effect, done);
    TriedNothing(if attempts[2] == NoEffect then two else Apply(two, effect), effect, done);
  }

  lemma TriedNothing(s: Mailbox, effect: Event, done: Event)
    ensures Tried(s, [], effect, done) == s
  {
  }

  lemma TriedStep(s: Mailbox, attempts: seq<Attempt>, effect: Event, done: Event)
    requires |attempts| > 0
    ensures var next := if attempts[0] == NoEffect then s else Apply(s, effect);
            Tried(s, attempts, effect, done)
            == if attempts[0] == Succeeds then Apply(next, done) else Tried(next, attempts[1..], effect, done)
  {
    hide Apply;
  }

  /** The attempts so far took effect this often and changed nothing else. */
  ghost predicate OnlyEffects(s: Mailbox, item: Item, effects: nat, end: Mailbox) {
    TargetAfter(s, item, effects, end) && end.items == s.items && end.counters == s.counters
    && end.folders == s.folders && end.imapFolders == s.imapFolders && end.watermark == s.watermark
  }

  lemma OneEffect(s: Mailbox, item: Item, effects: nat, end: Mailbox)
    requires OnlyEffects(s, item, effects, end)
    ensures OnlyEffects(s, item, effects + 1, Apply(end, item.Effect()))
  {
  }

  lemma NoEffects(s: Mailbox, item: Item)
    ensures OnlyEffects(s, item, 0, s)
  {
  }

  lemma DoneApplied(s: Mailbox, item: Item, effects: nat, mid: Mailbox)
    requires OnlyEffects(s, item, effects, mid)
    ensures AfterAttempts(s, item, effects, true, Apply(mid, RowDone(item.ItemKey(), item.Stamp())))
  {
  }

  ghost predicate AfterAttempts(s: Mailbox, item: Item, effects: nat, succeeded: bool, end: Mailbox) {
    && TargetAfter(s, item, effects, end)
    && end.items == (if !succeeded then s.items
                     else s.items[KeyOf(item) := ItemRow(DONE, if item.Message? then StoredStamp(s, KeyOf(item))
                                                               else Some(item.stamp))])
    && end.counters == s.counters && end.folders == s.folders
    && end.imapFolders == s.imapFolders && end.watermark == s.watermark
  }

  /** After the attempts: their effects, and the success row if one of them succeeded. */
  lemma AttemptsEnd(s: Mailbox, item: Item, attempts: Attempts)
    ensures AfterAttempts(s, item, Effects(attempts), Succeeds in attempts,
                          Replay(s, Tries(attempts, item.Effect(), RowDone(item.ItemKey(), item.Stamp())).events))
  {
    hide Tries, Replay, Tried, Apply, TargetAfter;
    var effect := item.Effect();
    TriesReplay(s, attempts, effect, RowDone(item.ItemKey(), item.Stamp()));
    ThreeTried(s, attempts, effect, RowDone(item.ItemKey(), item.Stamp()));
    assert attempts == [attempts[0], attempts[1], attempts[2]];
    NoEffects(s, item);
    OneEffect(s, item, 0, s);
    var one := if attempts[0] == NoEffect then s else Apply(s, effect);
    var n: nat := if attempts[0] == NoEffect then 0 else 1;
    OneEffect(s, item, n, one);
    DoneApplied(s, item, n, one);
    var two := if attempts[1] == NoEffect then one else Apply(one, effect);
    var m := if attempts[1] == NoEffect then n else n + 1;
    OneEffect(s, item, m, two);
    DoneApplied(s, item, m, two);
    var three := if attempts[2] == NoEffect then two else Apply(two, effect);
    DoneApplied(s, item, if attempts[2] == NoEffect then m else m + 1, three);
  }

  /** In a real run a listed item that meets no failure ends DONE in its version, whatever row it had before. */
  lemma NobodyIsForgotten(s: Mailbox, item: Item, script: Script)
    requires Stamped(s) && script.attempts[0] == Succeeds && script.commits[0]
    ensures var end, key := Replay(s, ItemBlock(s, false, item, script).events), KeyOf(item);
            && key in end.items && end.items[key].status == DONE
            && (!item.Message? ==>
                  end.items[key].sourceModifiedAt.Some? && end.items[key].sourceModifiedAt.value >= item.stamp)
  {
    hide Replay, ItemBlock;
    ItemExactly(s, false, item, script);
    assert Succeeds in script.attempts;
  }

  /** Its rows and the target stay untouched exactly when the row was DONE and no older than the version listed. */
  lemma UntouchedExactly(s: Mailbox, item: Item, script: Script)
    requires Stamped(s) && script.attempts[0] == Succeeds && script.commits[0]
    ensures var end, key := Replay(s, ItemBlock(s, false, item, script).events), KeyOf(item);
            end.items == s.items && end.messages == s.messages && end.objects == s.objects
            <==> key in s.items && s.items[key].status == DONE
                 && (item.Message? || s.items[key].sourceModifiedAt.value >= item.stamp)
  {
    hide Replay, ItemBlock;
    ItemExactly(s, false, item, script);
    assert Succeeds in script.attempts;
  }

  // ---- one folder -----------------------------------------------------------

  /**
   One listed folder: a row is inserted when there is none, also in a dry run; a real run creates the
   mailbox under the present path when the row is not marked, and then marks it.
   */
  lemma FolderExactly(s: Mailbox, dryRun: bool, id: string, graphPath: string, path: string, script: FolderScript)
    ensures var block := FolderBlock(s, dryRun, id, graphPath, path, script);
            var end := Replay(s, block.events);
            var known, marked := id in s.folders, id in s.folders && s.folders[id].created;
            var row := if known then s.folders[id] else FolderRow(graphPath, path, false);
            var creates := !marked && !dryRun && (known || script.inserted);
            && end.folders == (if !known && !script.inserted then s.folders
                               else s.folders[id := row.(created := marked || (creates && script.ensured == Succeeds))])
            && end.imapFolders == (if creates
              && script.ensured != NoEffect then s.imapFolders + {path} else s.imapFolders)
            && end.items == s.items && end.messages == s.messages && end.objects == s.objects
            && end.counters == s.counters && end.watermark == s.watermark
            && (block.raised <==> (!known && !script.inserted) || (creates && script.ensured != Succeeds))
  {
    hide Replay;
    var inserted, made, marking := FolderInserted(id, graphPath, path), FolderEnsured(id, path), FolderMarked(id);
    ReplayQuiet(s);
    FolderReplays(s, inserted, made, marking);
    var block := FolderBlock(s, dryRun, id, graphPath, path, script);
    assert block.events in {[], [inserted], [made], [made, marking], [inserted] + [], [inserted] + [made],
                            [inserted] + [made, marking]};
    assert id in s.folders ==> s.folders[id := s.folders[id]] == s.folders;
  }

  lemma FolderReplays(s: Mailbox, a: Event, b: Event, c: Event)
    ensures Replay(s, [a]) == Apply(s, a) && Replay(s, [b]) == Apply(s, b)
    ensures Replay(s, [b, c]) == Apply(Apply(s, b), c)
    ensures Replay(s, [a] + []) == Apply(s, a) && Replay(s, [a] + [b]) == Apply(Apply(s, a), b)
    ensures Replay(s, [a] + [b, c]) == Apply(Apply(Apply(s, a), b), c)
  {
    ReplayOne(s, [], a);
    ReplayOne(s, [], b);
    assert [] + [a] == [a] && [] + [b] == [b] && [a] + [] == [a];
    ReplayOne(s, [b], c);
    assert [b] + [c] == [b, c];
    ReplayOne(s, [a], b);
    ReplayThree(s, a, b, c);
    assert [a] + [b, c] == [a, b, c];
  }
}
