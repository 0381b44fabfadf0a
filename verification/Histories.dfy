/**
 Histories of runs on one mapping, with one worker at a time: each run goes on from the rows the last
 one left, and may finish, fail, be cancelled, or be cut off by a crash between any two events.
 */
module Histories {
  import opened Wrappers
  import opened FolderMapping
  import opened ImportModel
  import opened Runner

  /** One run of a job, cut off by a crash after `cut` events if it has that many. */
  datatype JobRun = JobRun(
    options: Options,
    world: Surroundings,
    mailSinceDate: Option<int>,
    cancelAt: Option<nat>,
    startedAt: int,
    cut: nat
  )

  function Cut(events: seq<Event>, n: nat): seq<Event> {
    if n < |events| then events[..n] else events
  }

  /** What the run logs when no crash cuts it off. */
  ghost function WholeLog(s: Mailbox, run: JobRun): seq<Event>
    requires WellFormed(run.world)
  {
    RunLog(s, [], run.options, run.world, run.mailSinceDate, run.cancelAt, run.startedAt)
  }

  ghost function RunEvents(s: Mailbox, run: JobRun): seq<Event>
    requires WellFormed(run.world)
  {
    Cut(WholeLog(s, run), run.cut) + [RunEnded]
  }

  ghost predicate WellFormedRuns(runs: seq<JobRun>) {
    forall run :: run in runs ==> WellFormed(run.world)
  }

  /** The events of a history of runs, one after the other, each resuming where the last one left the rows. */
  ghost function History(s: Mailbox, runs: seq<JobRun>): seq<Event>
    requires WellFormedRuns(runs)
    decreases |runs|
  {
    if |runs| == 0 then []
    else
      var events := RunEvents(s, runs[0]);
      events + History(Replay(s, events), runs[1..])
  }

  // ---- runs in which nothing raises -----------------------------------------

  const NOTHING := Listing([], false)

  /** Nothing raises, and nothing is listed but the folders. */
  function QuietWorld(folders: seq<Folder>, delimiter: char): Surroundings {
    Surroundings(
      RowCalls(true, true, true, true, true), false, false, [true, true, true], delimiter, Some(folders),
      (id: string) => FolderScript(true, Succeeds),
      (id: string, since: Option<int>) => NOTHING,
      false, Some([]),
      (id: string, since: Option<int>) => NOTHING,
      (since: Option<int>) => NOTHING)
  }

  // ---- a job as one list of units -------------------------------------------

  /** All units of a job in order; what raises between them is a Fault. */
  ghost function JobUnits(s: Mailbox, options: Options, world: Surroundings, mailSinceDate: Option<int>): seq<Unit>
    requires WellFormed(world)
  {
    if world.setupRaises || world.clientRaises then [Fault]
    else
      var modifiedSince := ModifiedSince(options, s.watermark);
      PassUnits(options, world, MailSince(mailSinceDate, modifiedSince)) + ObjectUnits(options, world, modifiedSince)
  }

  /** The mail pass, if enabled, and the close of its connection. */
  ghost function PassUnits(options: Options, world: Surroundings, since: Option<int>): seq<Unit>
    requires WellFormed(world)
  {
    if options.migrateMail then MailUnits(world, since) + FaultIf(world.closeRaises) else []
  }

  /** A first unit that does not end the run, and then the rest. */
  lemma RunUnitsStep(s: Mailbox, dryRun: bool, unit: Unit, rest: seq<Unit>, clock: nat, cancelAt: Option<nat>)
    requires !unit.Fault? && !CancelledBy(cancelAt, clock) && !UnitBlock(s, dryRun, unit).raised
    ensures var events := [Checked(false)] + UnitBlock(s, dryRun, unit).events;
            var t := RunUnits(Replay(s, events), dryRun, rest, clock + |events|, cancelAt);
            RunUnits(s, dryRun, [unit] + rest, clock, cancelAt) == Trace(events + t.events, t.exit)
  {
    hide Replay, UnitBlock;
    assert ([unit] + rest)[1..] == rest;
  }

  /** A first unit that does end it. */
  lemma RunUnitsStop(s: Mailbox, dryRun: bool, unit: Unit, rest: seq<Unit>, clock: nat, cancelAt: Option<nat>)
    requires unit.Fault? || CancelledBy(cancelAt, clock) || UnitBlock(s, dryRun, unit).raised
    ensures RunUnits(s, dryRun, [unit] + rest, clock, cancelAt) == RunUnits(s, dryRun, [unit], clock, cancelAt)
    ensures RunUnits(s, dryRun, [unit], clock, cancelAt).exit != Finished
  {
    hide Replay, UnitBlock;
  }

  /** A list of units is run by running its first part and then, if that finished, the rest. */
  lemma {:induction false} RunUnitsConcat(s: Mailbox, dryRun: bool, first: seq<Unit>, second: seq<Unit>,
                                          clock: nat, cancelAt: Option<nat>)
    ensures var t := RunUnits(s, dryRun, first, clock, cancelAt);
            var r := RunUnits(Replay(s, t.events), dryRun, second, clock + |t.events|, cancelAt);
            RunUnits(s, dryRun, first + second, clock, cancelAt)
            == if t.exit == Finished then Trace(t.events + r.events, r.exit) else t
    decreases |first|
  {
    hide RunUnits, UnitBlock, Replay, CancelledBy;
    if |first| == 0 {
      NothingRuns(s, dryRun, first, second, clock, cancelAt);
    } else {
      var unit, rest := first[0], first[1..];
      assert first == [unit] + rest && first + second == [unit] + (rest + second);
      if unit.Fault? || CancelledBy(cancelAt, clock) || UnitBlock(s, dryRun, unit).raised {
        RunUnitsStop(s, dryRun, unit, rest, clock, cancelAt);
        RunUnitsStop(s, dryRun, unit, rest + second, clock, cancelAt);
      } else {
        var events := [Checked(false)] + UnitBlock(s, dryRun, unit).events;
        var next, later := Replay(s, events), clock + |events|;
        var t := RunUnits(next, dryRun, rest, later, cancelAt);
        RunUnitsStep(s, dryRun, unit, rest, clock, cancelAt);
        RunUnitsStep(s, dryRun, unit, rest + second, clock, cancelAt);
        RunUnitsConcat(next, dryRun, rest, second, later, cancelAt);
        ReplayConcat(s, events, t.events);
        assert forall more :: events + (t.events + more) == events + t.events + more;
      }
    }
  }

  lemma NothingRuns(s: Mailbox, dryRun: bool, first: seq<Unit>, second: seq<Unit>, clock: nat, cancelAt: Option<nat>)
    requires |first| == 0
    ensures RunUnits(s, dryRun, first, clock, cancelAt) == Trace([], Finished) && first + second == second
    ensures Replay(s, []) == s && forall t: Trace :: Trace([] + t.events, t.exit) == t
  {
    ReplayQuiet(s);
    assert forall t: Trace :: [] + t.events == t.events;
  }

  /** A job does what one run over all its units does. */
  lemma JobAsOneRun(s: Mailbox, options: Options, world: Surroundings, mailSinceDate: Option<int>,
                    cancelAt: Option<nat>)
    requires WellFormed(world)
    ensures var job := JobTrace(s, [], options, world, mailSinceDate, cancelAt);
            var one := RunUnits(s, options.dryRun, JobUnits(s, options, world, mailSinceDate), 0, cancelAt);
            job.events == one.events && (job.exit == Finished <==> one.exit == Finished)
  {
    hide RunUnits, MailUnits, ObjectUnits, Replay;
    ReplayQuiet(s);
    if world.setupRaises || world.clientRaises {
      FaultRaises(s, options.dryRun, 0, cancelAt);
    } else {
      var modifiedSince := ModifiedSince(options, s.watermark);
      var since := MailSince(mailSinceDate, modifiedSince);
      var mail := MailTrace([], s, options, world, since, cancelAt);
      PassAsOneRun(s, options, world, since, cancelAt);
      RunUnitsConcat(s, options.dryRun, PassUnits(options, world, since), ObjectUnits(options, world, modifiedSince), 0,
                     cancelAt);
    }
  }

  lemma PassAsOneRun(s: Mailbox, options: Options, world: Surroundings, since: Option<int>, cancelAt: Option<nat>)
    requires WellFormed(world)
    ensures var mail := MailTrace([], s, options, world, since, cancelAt);
            var one := RunUnits(s, options.dryRun, PassUnits(options, world, since), 0, cancelAt);
            mail.events == one.events && (mail.exit == Finished <==> one.exit == Finished)
  {
    hide MailUnits, Replay, UnitBlock;
    if options.migrateMail {
      var units := MailUnits(world, since);
      var t := RunUnits(s, options.dryRun, units, 0, cancelAt);
      assert [] + t.events == t.events;
      RunUnitsConcat(s, options.dryRun, units, FaultIf(world.closeRaises), 0, cancelAt);
      FaultRaises(Replay(s, t.events), options.dryRun, |t.events|, cancelAt);
      assert t.events + [] == t.events;
    }
  }

  lemma FaultRaises(s: Mailbox, dryRun: bool, clock: nat, cancelAt: Option<nat>)
    ensures RunUnits(s, dryRun, [Fault], clock, cancelAt) == Trace([], Raised)
    ensures RunUnits(s, dryRun, [], clock, cancelAt) == Trace([], Finished)
  {
  }
}
