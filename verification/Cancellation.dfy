/** How much a run still does once a cancel has landed. */
module Cancellation {
  import opened Wrappers
  import opened ImportModel
  import opened Runner
  import opened Histories

  // ---- cancellation ---------------------------------------------------------

  datatype Subject = NoSubject | OfFolder(id: string) | OfItem(key: Key)

  /** The folder or item an event works on. */
  function SubjectOf(e: Event): Subject {
    match e
    case FolderInserted(id, _, _) => OfFolder(id)
    case FolderEnsured(id, _) => OfFolder(id)
    case FolderMarked(id) => OfFolder(id)
    case Appended(_, id) => OfItem(Key(Mail, id))
    case Stored(key, _) => OfItem(key)
    case RowDone(key, _) => OfItem(key)
    case RowFailed(key) => OfItem(key)
    case Counted(key, _) => OfItem(key)
    case _ => NoSubject
  }

  ghost predicate AllAbout(events: seq<Event>, subject: Subject) {
    forall i :: 0 <= i < |events| ==> SubjectOf(events[i]) == subject
  }

  lemma ItemAbout(s: Mailbox, dryRun: bool, item: Item, script: Script)
    ensures AllAbout(ItemBlock(s, dryRun, item, script).events, OfItem(item.ItemKey()))
  {
    hide Tries;
    var done := RowDone(item.ItemKey(), item.Stamp());
    TriesEvents(script.attempts, item.Effect(), done);
    var tried := Tries(script.attempts, item.Effect(), done).events;
    assert forall i :: 0 <= i < |tried| ==> tried[i] in tried;
  }

  lemma UnitAbout(s: Mailbox, dryRun: bool, unit: Unit) returns (subject: Subject)
    ensures AllAbout(UnitBlock(s, dryRun, unit).events, subject) && subject != NoSubject
  {
    hide ItemBlock;
    match unit {
      case FolderUnit(id, _, _, _) => subject := OfFolder(id);
      case ItemUnit(item, script) =>
        ItemAbout(s, dryRun, item, script);
        subject := OfItem(item.ItemKey());
      case Fault => subject := OfFolder("");
    }
  }

  /** From time `from` on, events[i..] work on one folder or item only, and a check is the last event. */
  ghost predicate OneSubjectFrom(events: seq<Event>, from: int, subject: Subject) {
    forall i :: 0 <= i < |events| && from <= i ==>
      SubjectOf(events[i]) == subject || (events[i] == Checked(true) && i == |events| - 1)
  }

  /**
   However a cancel falls among the events, the work after it belongs to a single folder or item,
   the one in progress; the next check ends the run.
   */
  lemma {:induction false} BoundedCancellation(s: Mailbox, dryRun: bool, units: seq<Unit>, clock: nat, cancelTime: nat)
    returns (subject: Subject)
    ensures subject != NoSubject
    ensures OneSubjectFrom(RunUnits(s, dryRun, units, clock, Some(cancelTime)).events, cancelTime - clock, subject)
    decreases |units|
  {
    hide UnitBlock, Replay, SubjectOf;
    subject := OfFolder("");
    if |units| > 0 && !units[0].Fault? && clock < cancelTime {
      var block := UnitBlock(s, dryRun, units[0]);
      var events := [Checked(false)] + block.events;
      subject := UnitAbout(s, dryRun, units[0]);
      if !block.raised {
        var next, later := Replay(s, events), clock + |events|;
        var rest := RunUnits(next, dryRun, units[1..], later, Some(cancelTime)).events;
        var restSubject := BoundedCancellation(next, dryRun, units[1..], later, cancelTime);
        if cancelTime > later {
          subject := restSubject;
        } else {
          assert rest == [] || rest == [Checked(true)];
        }
      }
    }
  }

  // ---- cancellation of a whole job ------------------------------------------

  /** The same bound for a whole job: its mail pass and its calendar and contact passes. */
  lemma JobCancellation(s: Mailbox, options: Options, world: Surroundings, mailSinceDate: Option<int>, cancelTime: nat)
    returns (subject: Subject)
    requires WellFormed(world)
    ensures subject != NoSubject
    ensures OneSubjectFrom(JobTrace(s, [], options, world, mailSinceDate, Some(cancelTime)).events, cancelTime, subject)
  {
    hide RunUnits, JobUnits, JobTrace, SubjectOf;
    JobAsOneRun(s, options, world, mailSinceDate, Some(cancelTime));
    subject := BoundedCancellation(s, options.dryRun, JobUnits(s, options, world, mailSinceDate), 0, cancelTime);
  }
}
