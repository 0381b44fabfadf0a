/** Calendar and contact objects converge to their newest version whatever the order of the listing. */
module Convergence {
  import opened Wrappers
  import opened ImportModel
  import opened Runner
  import opened Histories
  import opened DryRuns

  // ---- convergence ----------------------------------------------------------

  /** The row and the target of an object agree on a version, or there is neither row nor version. */
  ghost predicate Settled(s: Mailbox, key: Key, version: Option<int>) {
    match version
    case None => key !in s.items
    case Some(v) => Row(s, key) == Some(ItemRow(DONE, Some(v))) && key in s.objects && s.objects[key] == v
  }

  /** The listed versions of an object. */
  ghost predicate Lists(units: seq<Unit>, key: Key, stamp: int) {
    exists u :: u in units && u.ItemUnit? && u.item.ItemKey() == key && u.item.Stamp() == Some(stamp)
  }

  /** `newest` is the newest of the old version and the listed ones. */
  ghost predicate IsNewest(newest: Option<int>, before: Option<int>, units: seq<Unit>, key: Key) {
    match newest
    case None => before == None && forall stamp :: !Lists(units, key, stamp)
    case Some(v) =>
      (before == newest || Lists(units, key, v))
      && (before.Some? ==> before.value <= v)
      && forall stamp :: Lists(units, key, stamp) ==> stamp <= v
  }

  function Newer(before: Option<int>, stamp: int): int {
    if before.Some? && before.value >= stamp then before.value else stamp
  }

  lemma SettledStep(s: Mailbox, item: Item, key: Key, before: Option<int>)
    requires Settled(s, key, before) && !item.Message? && item.ItemKey() == key
    ensures Settled(AfterItem(s, false, item), key, Some(Newer(before, item.stamp)))
  {
  }

  lemma OtherStep(s: Mailbox, item: Item, key: Key, before: Option<int>)
    requires Settled(s, key, before) && key.category != Mail && item.ItemKey() != key
    ensures Settled(AfterItem(s, false, item), key, before)
  {
  }

  lemma FolderStep(s: Mailbox, events: seq<Event>, key: Key, before: Option<int>)
    requires Settled(s, key, before)
    requires forall e :: e in events ==> e.FolderInserted? || e.FolderEnsured? || e.FolderMarked?
    ensures Settled(Replay(s, events), key, before)
  {
    if |events| > 0 {
      FolderStep(s, events[..|events| - 1], key, before);
    }
  }

  /** One unit that meets no failure settles its object on the newer version and no other. */
  lemma UnitSettles(s: Mailbox, unit: Unit, key: Key, before: Option<int>) returns (next: Option<int>)
    requires Smooth(unit) && Settled(s, key, before) && key.category != Mail
    ensures !UnitBlock(s, false, unit).raised
    ensures Settled(Replay(s, [Checked(false)] + UnitBlock(s, false, unit).events), key, next)
    ensures next == if unit.ItemUnit? && unit.item.ItemKey() == key then Some(Newer(before, unit.item.stamp))
                    else before
  {
    hide Settled, Apply, Replay, AfterItem, ItemBlock;
    ReplayQuiet(s);
    ReplayConcat(s, [Checked(false)], UnitBlock(s, false, unit).events);
    next := before;
    match unit {
      case FolderUnit(_, _, _, _) =>
        FolderStep(s, UnitBlock(s, false, unit).events, key, before);
      case ItemUnit(item, script) =>
        SmoothBlock(s, false, item, script);
        SmoothReplay(s, false, item);
        if item.ItemKey() == key {
          SettledStep(s, item, key, before);
          next := Some(Newer(before, item.stamp));
        } else {
          OtherStep(s, item, key, before);
        }
    }
  }

  lemma NewestStep(newest: Option<int>, before: Option<int>, next: Option<int>, units: seq<Unit>, key: Key)
    requires |units| > 0 && key.category != Mail && IsNewest(newest, next, units[1..], key)
    requires next == if units[0].ItemUnit? && units[0].item.ItemKey() == key
                     then Some(Newer(before, units[0].item.stamp)) else before
    ensures IsNewest(newest, before, units, key)
  {
    var first := units[0];
    forall stamp
      ensures Lists(units, key, stamp)
              <==> (Lists(units[1..], key, stamp)
                    || (first.ItemUnit? && first.item.ItemKey() == key && first.item.Stamp() == Some(stamp)))
    {
      ListsSplit(units, key, stamp);
    }
  }

  lemma ListsSplit(units: seq<Unit>, key: Key, stamp: int)
    requires |units| > 0
    ensures Lists(units, key, stamp)
            <==> (Lists(units[1..], key, stamp)
                  || (units[0].ItemUnit? && units[0].item.ItemKey() == key && units[0].item.Stamp() == Some(stamp)))
  {
    assert units == [units[0]] + units[1..];
  }

  /**
   After a run that meets no failure, over any listing in any order and with any repeats, an object
   that started without a row or agreeing with it ends at the newest of its old and listed versions.
   */
  lemma {:induction false} Convergence(s: Mailbox, units: seq<Unit>, clock: nat, key: Key, before: Option<int>)
    returns (newest: Option<int>)
    requires key.category != Mail && Settled(s, key, before) && forall u :: u in units ==> Smooth(u)
    ensures RunUnits(s, false, units, clock, None).exit == Finished
    ensures Settled(Replay(s, RunUnits(s, false, units, clock, None).events), key, newest)
    ensures IsNewest(newest, before, units, key)
    decreases |units|
  {
    hide Settled, Smooth, UnitBlock, Replay, IsNewest;
    ReplayQuiet(s);
    if |units| == 0 {
      newest := before;
      NewestOfNothing(before, key);
    } else {
      var next := UnitSettles(s, units[0], key, before);
      SmoothIsNoFault(units[0]);
      var events := [Checked(false)] + UnitBlock(s, false, units[0]).events;
      newest := Convergence(Replay(s, events), units[1..], clock + |events|, key, next);
      ReplayConcat(s, events, RunUnits(Replay(s, events), false, units[1..], clock + |events|, None).events);
      NewestStep(newest, before, next, units, key);
    }
  }

  lemma NewestOfNothing(before: Option<int>, key: Key)
    ensures IsNewest(before, before, [], key)
  {
  }

  /** The same for a whole job, over all its folders, calendars and contacts. */
  lemma JobConvergence(s: Mailbox, options: Options, world: Surroundings, mailSinceDate: Option<int>,
                       key: Key, before: Option<int>) returns (newest: Option<int>)
    requires WellFormed(world) && !options.dryRun && key.category != Mail && Settled(s, key, before)
    requires forall u :: u in JobUnits(s, options, world, mailSinceDate) ==> Smooth(u)
    ensures var job := JobTrace(s, [], options, world, mailSinceDate, None);
            job.exit == Finished && Settled(Replay(s, job.events), key, newest)
    ensures IsNewest(newest, before, JobUnits(s, options, world, mailSinceDate), key)
  {
    hide JobTrace, JobUnits, RunUnits, Replay, Settled, IsNewest, Smooth;
    JobAsOneRun(s, options, world, mailSinceDate, None);
    newest := Convergence(s, JobUnits(s, options, world, mailSinceDate), 0, key, before);
  }
}
