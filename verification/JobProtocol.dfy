/**
 Requests, the worker pool, cancels and restarts over one job table, interleaved step by step.
 `cancel` reads and then writes without a guard, so it is two steps; a creation request is one, and may
 raise after its commit with only some of the new jobs submitted. A worker abandons its job when a call
 on the job's row raises: the commit of the start, the read after it, the terminal update or the last
 commit. It leaves the row as it is.
 */
module JobProtocol {
  import opened Wrappers
  import opened Runner
  import opened Jobs

  /** A worker has taken a job id from the queue, or won its start and is at a check or doing a unit of work. */
  datatype Phase = Taken | AtCheck | InUnit

  datatype Worker = Worker(job: nat, phase: Phase)

  datatype System = System(jobs: JobTable, nextId: nat, queue: multiset<nat>, workers: map<nat, Worker>,
                           cancels: multiset<nat>)

  datatype Step =
    | Create(mappings: seq<nat>, options: Options, mailSinceDate: Option<int>, submitted: nat)
    | Submit(job: nat)
    | Take(worker: nat, job: nat)
    | Start(worker: nat)
    | Check(worker: nat)
    | Work(worker: nat)
    | Finish(worker: nat, completed: bool)
    | Abandon(worker: nat)
    | CancelRead(job: nat)
    | CancelWrite(job: nat)
    | CancelAtOnce(job: nat)
    | Restart

  /** The ids of new jobs, each submitted once. */
  function Ids(first: nat, n: nat): multiset<nat> {
    if n == 0 then multiset{} else Ids(first, n - 1) + multiset{first + n - 1}
  }

  predicate Past(s: System, w: nat) {
    w in s.workers && s.workers[w].phase != Taken
  }

  ghost predicate Enabled(s: System, maxWorkers: nat, step: Step) {
    match step
    case Create(mappings, _, _, submitted) =>
      submitted <= |mappings| &&
      (forall k :: 0 <= k < |mappings| ==> !HasActive(s.jobs, mappings[k]))
      && (forall j, k :: 0 <= j < k < |mappings| ==> mappings[j] != mappings[k])
    case Submit(job) => job in s.jobs
    case Take(w, job) => w < maxWorkers && w !in s.workers && job in s.queue
    case Start(w) => w in s.workers && s.workers[w].phase == Taken
    case Check(w) => w in s.workers && s.workers[w].phase == AtCheck
    case Work(w) => w in s.workers && s.workers[w].phase == InUnit
    case Finish(w, _) => Past(s, w)
    case Abandon(w) => w in s.workers
    case CancelRead(job) => job in s.jobs && IsActive(s.jobs[job])
    case CancelWrite(job) => job in s.cancels
    case CancelAtOnce(job) => job in s.jobs && IsActive(s.jobs[job])
    case Restart => true
  }

  function Do(s: System, step: Step): System {
    match step
    case Create(mappings, options, since, submitted) =>
      s.(jobs := WithNew(s.jobs, s.nextId, mappings, options, since), nextId := s.nextId + |mappings|,
         queue := s.queue + Ids(s.nextId, submitted))
    case Submit(job) => s.(queue := s.queue + multiset{job})
    case Take(w, job) => s.(queue := s.queue - multiset{job}, workers := s.workers[w := Worker(job, Taken)])
    case Start(w) =>
      if w !in s.workers then s
      else
        var job := s.workers[w].job;
        if job in s.jobs && s.jobs[job].status == PENDING then
          s.(jobs := Started(s.jobs, job), workers := s.workers[w := Worker(job, AtCheck)])
        else s.(workers := s.workers - {w})
    case Check(w) =>
      if w !in s.workers then s
      else
        var job := s.workers[w].job;
        if job in s.jobs && s.jobs[job].status == CANCELLED then s.(workers := s.workers - {w})
        else s.(workers := s.workers[w := Worker(job, InUnit)])
    case Work(w) =>
      if w !in s.workers then s else s.(workers := s.workers[w := Worker(s.workers[w].job, AtCheck)])
    case Finish(w, completed) =>
      if w !in s.workers then s
      else s.(jobs := Ended(s.jobs, s.workers[w].job, completed), workers := s.workers - {w})
    case Abandon(w) => s.(workers := s.workers - {w})
    case CancelRead(job) => s.(cancels := s.cancels + multiset{job})
    case CancelWrite(job) => s.(jobs := CancelWritten(s.jobs, job), cancels := s.cancels - multiset{job})
    case CancelAtOnce(job) => s.(jobs := CancelWritten(s.jobs, job))
    case Restart => System(Resumed(s.jobs), s.nextId, multiset(Pending(Resumed(s.jobs))), map[], multiset{})
  }

  // ---- the invariant --------------------------------------------------------

  /** The status of a job that a worker is past the start of. */
  predicate IsHeld(job: Job) {
    job.status == RUNNING || job.status == CANCELLED
  }

  /** Workers past the start are on different jobs, each of them running or cancelled. */
  ghost predicate WorkersSane(s: System, maxWorkers: nat) {
    (forall w :: w in s.workers ==> w < maxWorkers)
    && (forall w :: Past(s, w) ==> s.workers[w].job in s.jobs && IsHeld(s.jobs[s.workers[w].job]))
    && (forall v, w :: Past(s, v) && Past(s, w) && v != w ==> s.workers[v].job != s.workers[w].job)
  }

  predicate HasWorker(s: System, job: nat) {
    exists w :: w in s.workers && s.workers[w].phase != Taken && s.workers[w].job == job
  }

  /** The queue and the workers know existing jobs only. */
  ghost predicate KnownIds(s: System) {
    (forall job :: job in s.queue ==> job in s.jobs) && (forall w :: w in s.workers ==> s.workers[w].job in s.jobs)
  }

  ghost predicate Inv(s: System, maxWorkers: nat) {
    IdsBelow(s.jobs, s.nextId) && OneActive(s.jobs) && WorkersSane(s, maxWorkers) && KnownIds(s)
  }

  /** New jobs for mappings without an active one keep the invariant, however they were committed. */
  lemma AddedKeeps(s: System, maxWorkers: nat, end: System, added: seq<nat>, submitted: nat)
    requires Inv(s, maxWorkers) && Adds(s.jobs, end.jobs, s.nextId, added) && submitted <= |added|
    requires end.nextId == s.nextId + |added| && end.workers == s.workers
    requires end.queue == s.queue + Ids(s.nextId, submitted)
    ensures Inv(end, maxWorkers)
  {
    hide OneActive, HasActive, Ids, IdsBelow, WorkersSane, KnownIds, Adds;
    AddsKeepsOneActive(s.jobs, end.jobs, s.nextId, added);
    AddedKeepsWorkers(s, maxWorkers, end, added);
    AddedIsKnown(s, end, added, submitted);
  }

  lemma AddedKeepsWorkers(s: System, maxWorkers: nat, end: System, added: seq<nat>)
    requires WorkersSane(s, maxWorkers) && Adds(s.jobs, end.jobs, s.nextId, added) && end.workers == s.workers
    ensures WorkersSane(end, maxWorkers)
  {
    hide HasActive;
    assert forall w :: Past(end, w) ==> Past(s, w);
  }

  lemma AddedIsKnown(s: System, end: System, added: seq<nat>, submitted: nat)
    requires KnownIds(s) && Adds(s.jobs, end.jobs, s.nextId, added) && submitted <= |added|
    requires end.workers == s.workers && end.queue == s.queue + Ids(s.nextId, submitted)
    ensures KnownIds(end)
  {
    hide HasActive, Ids;
    forall job | job in Ids(s.nextId, submitted) ensures job in end.jobs {
      IdsFrom(s.nextId, submitted, job);
    }
  }

  lemma CreateKeeps(s: System, maxWorkers: nat, step: Step)
    requires Inv(s, maxWorkers) && step.Create? && Enabled(s, maxWorkers, step)
    ensures Inv(Do(s, step), maxWorkers)
  {
    hide OneActive, WorkersSane, KnownIds, HasActive, Adds, WithNew, Ids;
    WithNewAdds(s.jobs, s.nextId, step.mappings, step.options, step.mailSinceDate);
    AddedKeeps(s, maxWorkers, Do(s, step), step.mappings, step.submitted);
  }

  lemma StartKeeps(s: System, maxWorkers: nat, w: nat)
    requires Inv(s, maxWorkers) && Enabled(s, maxWorkers, Start(w))
    ensures Inv(Do(s, Start(w)), maxWorkers)
  {
    hide OneActive, KnownIds, WorkersSane, IdsBelow, Started;
    StartKeepsRows(s, s.workers[w].job);
    StartKeepsWorkers(s, maxWorkers, w);
    StartKeepsKnown(s, w);
  }

  lemma StartKeepsWorkers(s: System, maxWorkers: nat, w: nat)
    requires WorkersSane(s, maxWorkers) && Enabled(s, maxWorkers, Start(w))
    ensures WorkersSane(Do(s, Start(w)), maxWorkers)
  {
    var end := Do(s, Start(w));
    assert forall v :: Past(end, v) && v != w ==> Past(s, v) && end.workers[v] == s.workers[v];
  }

  lemma StartKeepsKnown(s: System, w: nat)
    requires KnownIds(s)
    ensures KnownIds(Do(s, Start(w)))
  {
  }

  lemma StartKeepsRows(s: System, id: nat)
    requires OneActive(s.jobs) && IdsBelow(s.jobs, s.nextId)
    ensures OneActive(Started(s.jobs, id)) && IdsBelow(Started(s.jobs, id), s.nextId)
  {
  }

  /** Steps that neither create nor start jobs make no row active. */
  lemma RowsKeep(s: System, maxWorkers: nat, step: Step)
    requires IdsBelow(s.jobs, s.nextId) && OneActive(s.jobs)
    requires Enabled(s, maxWorkers, step) && !step.Create? && !step.Start?
    ensures IdsBelow(Do(s, step).jobs, Do(s, step).nextId) && OneActive(Do(s, step).jobs)
  {
    hide HasActive, WithNew, Started, Ids;
  }

  /** They put no worker past a start either, and take RUNNING off a row only with its worker. */
  lemma WorkersKeep(s: System, maxWorkers: nat, step: Step)
    requires WorkersSane(s, maxWorkers) && Enabled(s, maxWorkers, step) && !step.Create? && !step.Start?
    ensures WorkersSane(Do(s, step), maxWorkers)
  {
    hide WorkersSane, HasActive;
    match step {
      case Finish(w, _) => LeaveKeeps(s, maxWorkers, w, Do(s, step));
      case Abandon(w) => LeaveKeeps(s, maxWorkers, w, Do(s, step));
      case Check(w) => CheckKeeps(s, maxWorkers, w);
      case Work(w) => PhaseKeeps(s, maxWorkers, w, AtCheck);
      case Take(w, job) => TakeKeeps(s, maxWorkers, w, job);
      case CancelWrite(job) => CancelKeeps(s, maxWorkers, job, Do(s, step));
      case CancelAtOnce(job) => CancelKeeps(s, maxWorkers, job, Do(s, step));
      case Restart => NobodyIsSane(Do(s, step), maxWorkers);
      case _ => SameWorkers(s, maxWorkers, Do(s, step));
    }
  }

  /** A worker that leaves may change the row of its own job only. */
  lemma LeaveKeeps(s: System, maxWorkers: nat, w: nat, end: System)
    requires WorkersSane(s, maxWorkers) && w in s.workers && end.workers == s.workers - {w}
    requires end.jobs == s.jobs
             || (Past(s, w) && exists completed :: end.jobs == Ended(s.jobs, s.workers[w].job, completed))
    ensures WorkersSane(end, maxWorkers)
  {
    assert forall v :: Past(end, v) ==> Past(s, v) && v != w && end.workers[v] == s.workers[v];
  }

  lemma PhaseKeeps(s: System, maxWorkers: nat, w: nat, phase: Phase)
    requires WorkersSane(s, maxWorkers) && Past(s, w)
    ensures WorkersSane(s.(workers := s.workers[w := Worker(s.workers[w].job, phase)]), maxWorkers)
  {
    var end := s.(workers := s.workers[w := Worker(s.workers[w].job, phase)]);
    assert forall v :: Past(end, v) ==> Past(s, v) && end.workers[v].job == s.workers[v].job;
  }

  lemma CheckKeeps(s: System, maxWorkers: nat, w: nat)
    requires WorkersSane(s, maxWorkers) && Enabled(s, maxWorkers, Check(w))
    ensures WorkersSane(Do(s, Check(w)), maxWorkers)
  {
    hide WorkersSane;
    assert Past(s, w);
    if Do(s, Check(w)).workers == s.workers - {w} {
      LeaveKeeps(s, maxWorkers, w, Do(s, Check(w)));
    } else {
      PhaseKeeps(s, maxWorkers, w, InUnit);
    }
  }

  lemma TakeKeeps(s: System, maxWorkers: nat, w: nat, job: nat)
    requires WorkersSane(s, maxWorkers) && Enabled(s, maxWorkers, Take(w, job))
    ensures WorkersSane(Do(s, Take(w, job)), maxWorkers)
  {
    var end := Do(s, Take(w, job));
    assert forall v :: Past(end, v) ==> v != w && Past(s, v) && end.workers[v] == s.workers[v];
  }

  lemma CancelKeeps(s: System, maxWorkers: nat, job: nat, end: System)
    requires WorkersSane(s, maxWorkers) && end.jobs == CancelWritten(s.jobs, job) && end.workers == s.workers
    ensures WorkersSane(end, maxWorkers)
  {
    assert forall v :: Past(end, v) ==> Past(s, v);
  }

  lemma SameWorkers(s: System, maxWorkers: nat, end: System)
    requires WorkersSane(s, maxWorkers) && end.jobs == s.jobs && end.workers == s.workers
    ensures WorkersSane(end, maxWorkers)
  {
    assert forall v :: Past(end, v) ==> Past(s, v);
  }

  lemma NobodyIsSane(s: System, maxWorkers: nat)
    requires s.workers == map[]
    ensures WorkersSane(s, maxWorkers)
  {
  }

  lemma KnownKeep(s: System, maxWorkers: nat, step: Step)
    requires KnownIds(s) && Enabled(s, maxWorkers, step) && !step.Create? && !step.Start?
    ensures KnownIds(Do(s, step))
  {
    hide KnownIds, Do, Enabled;
    if step.Take? || step.Check? || step.Work? || step.Finish? || step.Abandon? {
      WorkerKnown(s, maxWorkers, step);
    } else {
      RowKnown(s, maxWorkers, step);
    }
  }

  lemma WorkerKnown(s: System, maxWorkers: nat, step: Step)
    requires KnownIds(s) && Enabled(s, maxWorkers, step)
    requires step.Take? || step.Check? || step.Work? || step.Finish? || step.Abandon?
    ensures KnownIds(Do(s, step))
  {
    hide HasActive, WithNew, Started, Ids, CancelWritten, Resumed;
  }

  lemma RowKnown(s: System, maxWorkers: nat, step: Step)
    requires KnownIds(s) && Enabled(s, maxWorkers, step)
    requires step.Submit? || step.CancelRead? || step.CancelWrite? || step.CancelAtOnce? || step.Restart?
    ensures KnownIds(Do(s, step))
  {
    hide HasActive, WithNew, Started, Ids, Ended;
  }

  /** Every step of every interleaving keeps the invariant. */
  lemma StepKeeps(s: System, maxWorkers: nat, step: Step)
    requires Inv(s, maxWorkers) && Enabled(s, maxWorkers, step)
    ensures Inv(Do(s, step), maxWorkers)
  {
    hide OneActive, WorkersSane, KnownIds, IdsBelow, Enabled, Do;
    match step {
      case Create(_, _, _, _) => CreateKeeps(s, maxWorkers, step);
      case Start(w) => StartKeeps(s, maxWorkers, w);
      case _ =>
        RowsKeep(s, maxWorkers, step);
        WorkersKeep(s, maxWorkers, step);
        KnownKeep(s, maxWorkers, step);
    }
  }

  // ---- histories ------------------------------------------------------------

  ghost predicate Possible(s: System, maxWorkers: nat, steps: seq<Step>)
    decreases |steps|
  {
    |steps| == 0 || (Enabled(s, maxWorkers, steps[0]) && Possible(Do(s, steps[0]), maxWorkers, steps[1..]))
  }

  function After(s: System, steps: seq<Step>): System
    decreases |steps|
  {
    if |steps| == 0 then s else After(Do(s, steps[0]), steps[1..])
  }

  const EMPTY := System(map[], 0, multiset{}, map[], multiset{})

  lemma {:induction false} HistoryKeeps(s: System, maxWorkers: nat, steps: seq<Step>)
    requires Inv(s, maxWorkers) && Possible(s, maxWorkers, steps)
    ensures Inv(After(s, steps), maxWorkers)
    decreases |steps|
  {
    hide Inv, Enabled, Do;
    if |steps| > 0 {
      StepKeeps(s, maxWorkers, steps[0]);
      HistoryKeeps(Do(s, steps[0]), maxWorkers, steps[1..]);
    }
  }

  /** The system starts empty, so the invariant holds in every state it can reach. */
  lemma EmptyKeeps(maxWorkers: nat)
    ensures Inv(EMPTY, maxWorkers)
  {
  }

  lemma EveryHistoryKeeps(maxWorkers: nat, steps: seq<Step>)
    requires Possible(EMPTY, maxWorkers, steps)
    ensures Inv(After(EMPTY, steps), maxWorkers)
  {
    EmptyKeeps(maxWorkers);
    HistoryKeeps(EMPTY, maxWorkers, steps);
  }

  // ---- status histories -----------------------------------------------------

  /** The status changes the tool makes, and the step that makes each. */
  predicate Allowed(from: JobStatus, to: JobStatus, step: Step) {
    from == to
    || (from == PENDING && to == RUNNING && step.Start?)
    || (from == RUNNING && (to == COMPLETED || to == FAULTED) && step.Finish?)
    || (to == CANCELLED && (step.CancelWrite? || step.CancelAtOnce?))
    || (from == RUNNING && to == PENDING && step.Restart?)
  }

  lemma StatusChanges(s: System, maxWorkers: nat, step: Step, job: nat)
    requires Inv(s, maxWorkers) && Enabled(s, maxWorkers, step) && job in s.jobs
    ensures job in Do(s, step).jobs && Allowed(s.jobs[job].status, Do(s, step).jobs[job].status, step)
  {
    hide OneActive, WorkersSane, HasActive, WithNew, Resumed;
    assert job < s.nextId;
    ResumedStatus(s.jobs, job);
  }

  lemma ResumedStatus(jobs: JobTable, job: nat)
    requires job in jobs
    ensures job in Resumed(jobs)
    ensures Resumed(jobs)[job].status == if jobs[job].status == RUNNING then PENDING else jobs[job].status
  {
  }

  /** CANCELLED is never left, whatever else happens. */
  lemma {:induction false} CancelledIsFinal(s: System, maxWorkers: nat, steps: seq<Step>, job: nat)
    requires Inv(s, maxWorkers) && Possible(s, maxWorkers, steps) && job in s.jobs && s.jobs[job].status == CANCELLED
    ensures job in After(s, steps).jobs && After(s, steps).jobs[job].status == CANCELLED
    decreases |steps|
  {
    hide Inv, Enabled, Do;
    if |steps| > 0 {
      StepKeeps(s, maxWorkers, steps[0]);
      StatusChanges(s, maxWorkers, steps[0], job);
      CancelledIsFinal(Do(s, steps[0]), maxWorkers, steps[1..], job);
    }
  }

  /** A terminal status stays over every run, as long as no cancel of the job is between its read and its write. */
  lemma {:induction false} TerminalIsFinal(s: System, maxWorkers: nat, steps: seq<Step>, job: nat)
    requires Inv(s, maxWorkers) && Possible(s, maxWorkers, steps) && job !in s.cancels
    requires job in s.jobs && IsTerminal(s.jobs[job].status)
    ensures job in After(s, steps).jobs && After(s, steps).jobs[job].status == s.jobs[job].status
    decreases |steps|
  {
    hide Inv;
    if |steps| > 0 {
      StepKeeps(s, maxWorkers, steps[0]);
      TerminalStep(s, maxWorkers, steps[0], job);
      TerminalIsFinal(Do(s, steps[0]), maxWorkers, steps[1..], job);
    }
  }

  lemma TerminalStep(s: System, maxWorkers: nat, step: Step, job: nat)
    requires Inv(s, maxWorkers) && Enabled(s, maxWorkers, step) && job !in s.cancels
    requires job in s.jobs && IsTerminal(s.jobs[job].status)
    ensures var end := Do(s, step);
            job !in end.cancels && job in end.jobs && end.jobs[job].status == s.jobs[job].status
  {
    hide OneActive, WorkersSane, HasActive;
    StatusChanges(s, maxWorkers, step, job);
  }

  ghost predicate Changes(s: System, maxWorkers: nat, steps: seq<Step>, job: nat)
    requires job in s.jobs
  {
    Possible(s, maxWorkers, steps)
    && !(job in After(s, steps).jobs && After(s, steps).jobs[job].status == s.jobs[job].status)
  }

  /**
   COMPLETED and FAILED can be lost exactly while a cancel that was read in time waits for its write;
   where every cancel is atomic there is none, and all three terminal states are absorbing.
   */
  lemma TerminalLostExactly(s: System, maxWorkers: nat, job: nat)
    requires Inv(s, maxWorkers) && job in s.jobs && IsTerminal(s.jobs[job].status)
    ensures (exists steps :: Changes(s, maxWorkers, steps, job))
            <==> job in s.cancels && s.jobs[job].status != CANCELLED
  {
    hide Inv, Do, Enabled;
    forall steps | Possible(s, maxWorkers, steps) && !(job in s.cancels && s.jobs[job].status != CANCELLED)
      ensures !Changes(s, maxWorkers, steps, job)
    {
      if job in s.cancels {
        CancelledIsFinal(s, maxWorkers, steps, job);
      } else {
        TerminalIsFinal(s, maxWorkers, steps, job);
      }
    }
    if job in s.cancels && s.jobs[job].status != CANCELLED {
      WriteChanges(s, maxWorkers, job);
      var write := [CancelWrite(job)];
      assert write[1..] == [];
      var end := Do(s, write[0]);
      assert Possible(end, maxWorkers, []) && After(end, []) == end;
      assert Possible(s, maxWorkers, write) && After(s, write) == end;
      assert Changes(s, maxWorkers, write, job);
    }
  }

  lemma WriteChanges(s: System, maxWorkers: nat, job: nat)
    requires job in s.jobs && job in s.cancels
    ensures Enabled(s, maxWorkers, CancelWrite(job))
    ensures job in Do(s, CancelWrite(job)).jobs && Do(s, CancelWrite(job)).jobs[job].status == CANCELLED
  {
  }

  const EVERYTHING := Options(INITIAL, true, true, true, false)

  // A pool whose first worker runs job 0, of mapping 7.
  const RUN_STEPS := [Create([7], EVERYTHING, None, 1), Take(0, 0), Start(0)]
  const RUNNING_JOB := Job(7, EVERYTHING, None, RUNNING)
  const ONE_RUNS := System(map[0 := RUNNING_JOB], 1, multiset{}, map[0 := Worker(0, AtCheck)], multiset{})

  lemma OneRuns(maxWorkers: nat)
    requires maxWorkers >= 1
    ensures Possible(EMPTY, maxWorkers, RUN_STEPS) && After(EMPTY, RUN_STEPS) == ONE_RUNS
  {
    var pending := RUNNING_JOB.(status := PENDING);
    var s1 := System(map[0 := pending], 1, multiset{0}, map[], multiset{});
    var s2 := System(map[0 := pending], 1, multiset{}, map[0 := Worker(0, Taken)], multiset{});
    assert Ids(0, 1) == multiset{0};
    assert WithNew(map[], 0, [7], EVERYTHING, None) == map[0 := pending];
    assert Do(EMPTY, RUN_STEPS[0]) == s1;
    assert Do(s1, RUN_STEPS[1]) == s2;
    assert Do(s2, RUN_STEPS[2]) == ONE_RUNS;
    Three(EMPTY, maxWorkers, RUN_STEPS, ONE_RUNS);
  }

  /** As it is, a cancel that was read in time may be written after the job has completed. */
  lemma LateCancelOverwrites() returns (steps: seq<Step>, before: System)
    ensures Possible(EMPTY, 1, steps + [CancelWrite(0)]) && before == After(EMPTY, steps)
    ensures 0 in before.jobs && before.jobs[0].status == COMPLETED
    ensures After(EMPTY, steps + [CancelWrite(0)]) == Do(before, CancelWrite(0))
    ensures Do(before, CancelWrite(0)).jobs[0].status == CANCELLED
  {
    OneRuns(1);
    var tail := [CancelRead(0), Finish(0, true)];
    var s4 := ONE_RUNS.(cancels := multiset{0});
    before := System(map[0 := RUNNING_JOB.(status := COMPLETED)], 1, multiset{}, map[], multiset{0});
    assert Do(ONE_RUNS, tail[0]) == s4;
    assert Do(s4, tail[1]) == before;
    Three(ONE_RUNS, 1, tail + [CancelWrite(0)], Do(before, CancelWrite(0)));
    Two(ONE_RUNS, 1, tail, before);
    steps := RUN_STEPS + tail;
    Both(EMPTY, 1, RUN_STEPS, tail);
    assert steps + [CancelWrite(0)] == RUN_STEPS + (tail + [CancelWrite(0)]);
    Both(EMPTY, 1, RUN_STEPS, tail + [CancelWrite(0)]);
  }

  lemma Two(s: System, maxWorkers: nat, steps: seq<Step>, end: System)
    requires |steps| == 2 && end == Do(Do(s, steps[0]), steps[1])
    ensures After(s, steps) == end
  {
    hide Do;
    assert After(Do(s, steps[0]), steps[1..]) == After(end, steps[1..][1..]);
  }

  lemma Three(s: System, maxWorkers: nat, steps: seq<Step>, end: System)
    requires |steps| == 3 && end == Do(Do(Do(s, steps[0]), steps[1]), steps[2])
    requires Enabled(s, maxWorkers, steps[0]) && Enabled(Do(s, steps[0]), maxWorkers, steps[1])
    requires Enabled(Do(Do(s, steps[0]), steps[1]), maxWorkers, steps[2])
    ensures Possible(s, maxWorkers, steps) && After(s, steps) == end
  {
    hide Do, Enabled;
    var rest := steps[1..];
    assert Possible(Do(Do(s, steps[0]), steps[1]), maxWorkers, rest[1..]);
    assert After(Do(Do(s, steps[0]), steps[1]), rest[1..]) == end;
  }

  lemma {:induction false} Both(s: System, maxWorkers: nat, first: seq<Step>, second: seq<Step>)
    ensures After(s, first + second) == After(After(s, first), second)
    ensures Possible(s, maxWorkers, first) && Possible(After(s, first), maxWorkers, second)
            ==> Possible(s, maxWorkers, first + second)
    decreases |first|
  {
    hide Do, Enabled;
    if |first| == 0 {
      assert first + second == second;
    } else {
      assert (first + second)[1..] == first[1..] + second;
      Both(Do(s, first[0]), maxWorkers, first[1..], second);
    }
  }

  /** Two stretches of a history and one last step. */
  lemma Chain(s: System, maxWorkers: nat, first: seq<Step>, mid: System, second: seq<Step>, late: System, last: Step)
    requires Possible(s, maxWorkers, first) && After(s, first) == mid
    requires Possible(mid, maxWorkers, second) && After(mid, second) == late
    requires Enabled(late, maxWorkers, last)
    ensures var steps := first + (second + [last]);
            Possible(s, maxWorkers, steps) && After(s, steps) == Do(late, last)
  {
    hide Do, Enabled;
    assert [last][1..] == [];
    var end := Do(late, last);
    assert Possible(end, maxWorkers, []) && After(end, []) == end;
    assert Possible(late, maxWorkers, [last]) && After(late, [last]) == end;
    Both(mid, maxWorkers, second, [last]);
    Both(s, maxWorkers, first, second + [last]);
  }

  // ---- single execution -----------------------------------------------------

  ghost predicate Dead(s: System, job: nat) {
    job in s.jobs && IsTerminal(s.jobs[job].status) && !HasWorker(s, job)
  }

  lemma DeadStep(s: System, maxWorkers: nat, step: Step, job: nat)
    requires Inv(s, maxWorkers) && Enabled(s, maxWorkers, step) && Dead(s, job)
    ensures Dead(Do(s, step), job)
  {
    hide Inv, Do;
    StatusChanges(s, maxWorkers, step, job);
    NoNewWorker(s, maxWorkers, step, job);
  }

  /** Only the guarded start puts a worker past it. */
  lemma NoNewWorker(s: System, maxWorkers: nat, step: Step, job: nat)
    requires Enabled(s, maxWorkers, step) && job in s.jobs && s.jobs[job].status != PENDING
    ensures HasWorker(Do(s, step), job) ==> HasWorker(s, job)
  {
    hide Do, Enabled;
    var end := Do(s, step);
    if HasWorker(end, job) {
      var w :| w in end.workers && end.workers[w].phase != Taken && end.workers[w].job == job;
      WasPast(s, maxWorkers, step, w);
    }
  }

  lemma WasPast(s: System, maxWorkers: nat, step: Step, w: nat)
    requires Enabled(s, maxWorkers, step) && Past(Do(s, step), w)
    ensures w in s.workers && s.workers[w].job == Do(s, step).workers[w].job
    ensures Past(s, w) || (s.workers[w].job in s.jobs && s.jobs[s.workers[w].job].status == PENDING)
  {
    hide HasActive, WithNew, Ended, CancelWritten, Resumed, Started, Ids;
  }

  /** A job whose worker has left it in a terminal status is never worked on again, however often it is queued. */
  lemma {:induction false} DeadForever(s: System, maxWorkers: nat, steps: seq<Step>, job: nat)
    requires Inv(s, maxWorkers) && Possible(s, maxWorkers, steps) && Dead(s, job)
    ensures Dead(After(s, steps), job) && WorkOn(s, steps, job) == 0
    decreases |steps|
  {
    hide Inv, Do;
    if |steps| > 0 {
      StepKeeps(s, maxWorkers, steps[0]);
      DeadStep(s, maxWorkers, steps[0], job);
      DeadForever(Do(s, steps[0]), maxWorkers, steps[1..], job);
    }
  }

  /** How many units of work the steps do for a job. */
  function WorkOn(s: System, steps: seq<Step>, job: nat): nat
    decreases |steps|
  {
    if |steps| == 0 then 0
    else
      var step := steps[0];
      (if step.Work? && Past(s, step.worker) && s.workers[step.worker].job == job then 1 else 0)
      + WorkOn(Do(s, step), steps[1..], job)
  }

  predicate UnitInProgress(s: System, job: nat) {
    exists w :: w in s.workers && s.workers[w].phase == InUnit && s.workers[w].job == job
  }

  lemma CancelledStep(s: System, maxWorkers: nat, step: Step, job: nat)
    requires Inv(s, maxWorkers) && Enabled(s, maxWorkers, step) && job in s.jobs && s.jobs[job].status == CANCELLED
    ensures UnitInProgress(Do(s, step), job) ==> UnitInProgress(s, job)
    ensures step.Work? && s.workers[step.worker].job == job ==>
              UnitInProgress(s, job) && !UnitInProgress(Do(s, step), job)
  {
    hide OneActive, HasActive, KnownIds, IdsBelow;
    var end := Do(s, step);
    assert forall w :: w in end.workers && end.workers[w].phase == InUnit && end.workers[w].job == job ==>
        w in s.workers && s.workers[w].phase == InUnit && s.workers[w].job == job;
    if step.Work? && s.workers[step.worker].job == job {
      assert Past(s, step.worker);
      assert forall w :: Past(s, w) && s.workers[w].job == job ==> w == step.worker;
    }
  }

  /** Over every interleaving, once a cancel has committed the job's worker finishes at most the unit in progress. */
  lemma {:induction false} BoundedCancellation(s: System, maxWorkers: nat, steps: seq<Step>, job: nat)
    requires Inv(s, maxWorkers) && Possible(s, maxWorkers, steps) && job in s.jobs && s.jobs[job].status == CANCELLED
    ensures WorkOn(s, steps, job) <= if UnitInProgress(s, job) then 1 else 0
    decreases |steps|
  {
    hide Inv, Do, UnitInProgress;
    if |steps| > 0 {
      StepKeeps(s, maxWorkers, steps[0]);
      StatusChanges(s, maxWorkers, steps[0], job);
      CancelledStep(s, maxWorkers, steps[0], job);
      BoundedCancellation(Do(s, steps[0]), maxWorkers, steps[1..], job);
    }
  }

  // ---- how many run ---------------------------------------------------------

  /** Jobs whose row says RUNNING though no worker is on them. */
  function Stranded(s: System): set<nat> {
    set job | job in s.jobs && s.jobs[job].status == RUNNING && !HasWorker(s, job)
  }

  /** The running jobs that a worker is on. */
  function Busy(s: System): set<nat> {
    set job | job in s.jobs && s.jobs[job].status == RUNNING && HasWorker(s, job)
  }

  /** The step takes a worker off a running job without touching its row. */
  predicate Strands(s: System, step: Step, job: nat) {
    step.Abandon? && Past(s, step.worker) && s.workers[step.worker].job == job
    && job in s.jobs && s.jobs[job].status == RUNNING
  }

  /** The step cancels the job or starts the program anew. */
  predicate Frees(step: Step, job: nat) {
    step == CancelWrite(job) || step == CancelAtOnce(job) || step == Restart
  }

  /** The step puts a worker past the start of the job. */
  predicate Joins(s: System, step: Step, job: nat) {
    step.Start? && step.worker in s.workers && s.workers[step.worker].job == job
    && job in s.jobs && s.jobs[job].status == PENDING
  }

  /** The step takes a worker off the job. */
  predicate Leaves(s: System, step: Step, job: nat) {
    (step.Finish? || step.Abandon? || (step.Check? && job in s.jobs && s.jobs[job].status == CANCELLED))
    && Past(s, step.worker) && s.workers[step.worker].job == job
  }

  lemma WorkerStep(s: System, maxWorkers: nat, step: Step, job: nat)
    requires WorkersSane(s, maxWorkers) && Enabled(s, maxWorkers, step) && !step.Restart?
    ensures HasWorker(Do(s, step), job) <==> Joins(s, step, job) || (HasWorker(s, job) && !Leaves(s, step, job))
  {
    hide HasWorker, WorkersSane, Do;
    var end := Do(s, step);
    if HasWorker(end, job) && !Joins(s, step, job) {
      var v := WorkerOf(end, job);
      WasThere(s, maxWorkers, step, job, v);
      PastHasWorker(s, v);
    }
    if HasWorker(s, job) && !Leaves(s, step, job) {
      var v := WorkerOf(s, job);
      StaysThere(s, maxWorkers, step, job, v);
      PastHasWorker(end, v);
    }
    if Joins(s, step, job) {
      JoinerThere(s, step, job);
      PastHasWorker(end, step.worker);
    }
  }

  lemma WorkerOf(s: System, job: nat) returns (w: nat)
    requires HasWorker(s, job)
    ensures Past(s, w) && s.workers[w].job == job
  {
    w :| w in s.workers && s.workers[w].phase != Taken && s.workers[w].job == job;
  }

  lemma PastHasWorker(s: System, w: nat)
    ensures Past(s, w) ==> HasWorker(s, s.workers[w].job)
  {
  }

  lemma WasThere(s: System, maxWorkers: nat, step: Step, job: nat, v: nat)
    requires WorkersSane(s, maxWorkers) && Enabled(s, maxWorkers, step) && !step.Restart? && !Joins(s, step, job)
    requires Past(Do(s, step), v) && Do(s, step).workers[v].job == job
    ensures Past(s, v) && s.workers[v].job == job && !Leaves(s, step, job)
  {
    hide HasActive, WithNew, Ids, CancelWritten, Ended, Started;
  }

  lemma StaysThere(s: System, maxWorkers: nat, step: Step, job: nat, v: nat)
    requires Enabled(s, maxWorkers, step) && !step.Restart? && !Leaves(s, step, job)
    requires Past(s, v) && s.workers[v].job == job
    ensures Past(Do(s, step), v) && Do(s, step).workers[v].job == job
  {
    hide HasActive, WithNew, Ids, CancelWritten, Ended, Started;
  }

  lemma JoinerThere(s: System, step: Step, job: nat)
    requires Joins(s, step, job)
    ensures Past(Do(s, step), step.worker) && Do(s, step).workers[step.worker].job == job
  {
  }

  /** The row says RUNNING after the step. */
  predicate RunsAfter(s: System, step: Step, job: nat) {
    job in Do(s, step).jobs && Do(s, step).jobs[job].status == RUNNING
  }

  predicate RunsOn(s: System, step: Step, job: nat) {
    job in s.jobs && s.jobs[job].status == RUNNING && !Frees(step, job)
    && !(step.Finish? && step.worker in s.workers && s.workers[step.worker].job == job)
  }

  lemma RunningCreate(s: System, maxWorkers: nat, step: Step, job: nat)
    requires IdsBelow(s.jobs, s.nextId) && Enabled(s, maxWorkers, step) && step.Create?
    ensures RunsAfter(s, step, job) <==> RunsOn(s, step, job)
  {
    hide HasActive, Ids;
  }

  lemma RunningWorker(s: System, maxWorkers: nat, step: Step, job: nat)
    requires Enabled(s, maxWorkers, step)
    requires step.Take? || step.Start? || step.Check? || step.Work? || step.Finish? || step.Abandon?
    ensures RunsAfter(s, step, job) <==> Joins(s, step, job) || RunsOn(s, step, job)
  {
    hide HasActive, WithNew, Ids, CancelWritten, Resumed;
  }

  lemma RunningRow(s: System, step: Step, job: nat)
    requires step.Submit? || step.CancelRead? || step.CancelWrite? || step.CancelAtOnce? || step.Restart?
    ensures RunsAfter(s, step, job) <==> RunsOn(s, step, job)
  {
    hide HasActive, WithNew, Ids, Started, Ended;
  }

  lemma RunningStep(s: System, maxWorkers: nat, step: Step, job: nat)
    requires IdsBelow(s.jobs, s.nextId) && Enabled(s, maxWorkers, step)
    ensures RunsAfter(s, step, job) <==> Joins(s, step, job) || RunsOn(s, step, job)
  {
    hide Enabled, IdsBelow, RunsAfter, RunsOn;
    if step.Create? {
      RunningCreate(s, maxWorkers, step, job);
    } else if step.Take? || step.Start? || step.Check? || step.Work? || step.Finish? || step.Abandon? {
      RunningWorker(s, maxWorkers, step, job);
    } else {
      RunningRow(s, step, job);
    }
  }

  /** A row is stranded exactly by an abandoned worker, and freed exactly by a cancel or a restart. */
  lemma StrandedExactly(s: System, maxWorkers: nat, step: Step, job: nat)
    requires Inv(s, maxWorkers) && Enabled(s, maxWorkers, step)
    ensures job in Stranded(Do(s, step)) <==> Strands(s, step, job) || (job in Stranded(s) && !Frees(step, job))
  {
    hide OneActive, WorkersSane, IdsBelow, Do, HasWorker;
    RunningStep(s, maxWorkers, step, job);
    if !step.Restart? {
      WorkerStep(s, maxWorkers, step, job);
      if step.Finish? || step.Abandon? {
        PastHasWorker(s, step.worker);
      }
    }
  }

  /** Running rows are those that busy workers are on and the stranded ones; the workers set no other bound. */
  lemma RunningCounted(s: System, maxWorkers: nat)
    requires Inv(s, maxWorkers)
    ensures |Running(s.jobs)| == |Busy(s)| + |Stranded(s)|
    ensures |Busy(s)| <= maxWorkers
    ensures |Running(s.jobs)| <= maxWorkers <==> |Stranded(s)| <= maxWorkers - |Busy(s)|
  {
    assert Running(s.jobs) == Busy(s) + Stranded(s);
    assert Busy(s) * Stranded(s) == {};
    ImageNotLarger(s.workers, Busy(s));
    assert |s.workers| == |s.workers.Keys|;
    Below(s.workers.Keys, maxWorkers);
  }

  ghost predicate NoneStrands(s: System, steps: seq<Step>)
    decreases |steps|
  {
    |steps| == 0 || ((forall job :: !Strands(s, steps[0], job)) && NoneStrands(Do(s, steps[0]), steps[1..]))
  }

  /**
   While no worker abandons a running job, rows that say RUNNING never outnumber the pool; it may start
   from any state without stranded rows, so from the empty one and from any restart.
   */
  lemma {:induction false} RunningBounded(s: System, maxWorkers: nat, steps: seq<Step>)
    requires Inv(s, maxWorkers) && Possible(s, maxWorkers, steps) && Stranded(s) == {} && NoneStrands(s, steps)
    ensures Stranded(After(s, steps)) == {} && |Running(After(s, steps).jobs)| <= maxWorkers
    decreases |steps|
  {
    hide Inv, Enabled, Do, Stranded, Strands;
    if |steps| == 0 {
      RunningCounted(s, maxWorkers);
    } else {
      StepKeeps(s, maxWorkers, steps[0]);
      forall job ensures job !in Stranded(Do(s, steps[0])) {
        StrandedExactly(s, maxWorkers, steps[0], job);
      }
      RunningBounded(Do(s, steps[0]), maxWorkers, steps[1..]);
    }
  }

  lemma RestartFreesAll(s: System)
    ensures Stranded(EMPTY) == {} && Stranded(Do(s, Restart)) == {}
  {
  }

  /** Until it is freed a stranded row blocks its mapping: no job can be created for it. */
  lemma {:induction false} StrandedBlocks(s: System, maxWorkers: nat, steps: seq<Step>, job: nat)
    requires Inv(s, maxWorkers) && Possible(s, maxWorkers, steps) && job in Stranded(s)
    requires forall i :: 0 <= i < |steps| ==> !Frees(steps[i], job)
    ensures job in Stranded(After(s, steps)) && After(s, steps).jobs[job].mapping == s.jobs[job].mapping
    ensures HasActive(After(s, steps).jobs, s.jobs[job].mapping)
    decreases |steps|
  {
    hide Inv, Enabled, Do, HasWorker;
    if |steps| == 0 {
      assert IsActive(s.jobs[job]);
    } else {
      StepKeeps(s, maxWorkers, steps[0]);
      StrandedExactly(s, maxWorkers, steps[0], job);
      MappingStays(s, maxWorkers, steps[0], job);
      StrandedBlocks(Do(s, steps[0]), maxWorkers, steps[1..], job);
    }
  }

  const STRAND_STEPS := [Abandon(0), Create([8], EVERYTHING, None, 1), Take(0, 1)]
  const SECOND_WAITS := map[0 := RUNNING_JOB, 1 := Job(8, EVERYTHING, None, PENDING)]
  const WAITS := System(SECOND_WAITS, 2, multiset{}, map[0 := Worker(1, Taken)], multiset{})

  const BOTH_RUN := System(map[0 := RUNNING_JOB, 1 := Job(8, EVERYTHING, None, RUNNING)], 2, multiset{},
                           map[0 := Worker(1, AtCheck)], multiset{})

  /** It happens: one worker, two rows that say RUNNING. */
  lemma StrandedHappens() returns (steps: seq<Step>)
    ensures Possible(EMPTY, 1, steps) && After(EMPTY, steps) == BOTH_RUN
    ensures Running(BOTH_RUN.jobs) == {0, 1} && 0 in Stranded(BOTH_RUN)
  {
    OneRuns(1);
    AbandonFirst();
    StartSecond();
    hide Do, Enabled, Possible, After, Running, Stranded;
    Chain(EMPTY, 1, RUN_STEPS, ONE_RUNS, STRAND_STEPS, WAITS, Start(0));
    steps := RUN_STEPS + (STRAND_STEPS + [Start(0)]);
  }

  lemma StartSecond()
    ensures Enabled(WAITS, 1, Start(0)) && Do(WAITS, Start(0)) == BOTH_RUN
    ensures Running(BOTH_RUN.jobs) == {0, 1} && 0 in Stranded(BOTH_RUN)
  {
  }

  lemma AbandonFirst()
    ensures Possible(ONE_RUNS, 1, STRAND_STEPS) && After(ONE_RUNS, STRAND_STEPS) == WAITS
  {
    var s4 := ONE_RUNS.(workers := map[]);
    var s5 := System(SECOND_WAITS, 2, multiset{1}, map[], multiset{});
    assert Do(ONE_RUNS, STRAND_STEPS[0]) == s4;
    assert !HasActive(s4.jobs, 8);
    assert WithNew(s4.jobs, 1, [8], EVERYTHING, None) == s5.jobs;
    assert Ids(1, 1) == multiset{1};
    assert Do(s4, STRAND_STEPS[1]) == s5;
    assert Do(s5, STRAND_STEPS[2]) == WAITS;
    Three(ONE_RUNS, 1, STRAND_STEPS, WAITS);
  }

  /** A pending job that neither the queue nor a worker holds. */
  predicate IsForgotten(s: System, job: nat) {
    job in s.jobs && s.jobs[job].status == PENDING && job !in s.queue
    && forall w :: w in s.workers ==> s.workers[w].job != job
  }

  /** A creation request raises before it has submitted the job, or the commit of its start raises. */
  predicate Forgets(s: System, step: Step, job: nat) {
    (step.Create? && s.nextId + step.submitted <= job < s.nextId + |step.mappings|)
    || (step.Abandon? && step.worker in s.workers && s.workers[step.worker].job == job
        && IsForgotten(s.(workers := s.workers - {step.worker}), job))
  }

  /** A job is forgotten exactly then, and until a cancel, a restart, or someone who submits it again. */
  lemma ForgottenExactly(s: System, maxWorkers: nat, step: Step, job: nat)
    requires Inv(s, maxWorkers) && Enabled(s, maxWorkers, step)
    ensures IsForgotten(Do(s, step), job)
            <==> Forgets(s, step, job) || (IsForgotten(s, job) && !Frees(step, job) && step != Submit(job))
  {
    hide OneActive, WorkersSane, KnownIds, IdsBelow, Do, IsForgotten;
    match step {
      case Create(_, _, _, _) => ForgottenCreate(s, maxWorkers, step, job);
      case Submit(_) => ForgottenRow(s, step, job);
      case CancelRead(_) => ForgottenRow(s, step, job);
      case CancelWrite(_) => ForgottenRow(s, step, job);
      case CancelAtOnce(_) => ForgottenRow(s, step, job);
      case Restart => ForgottenRow(s, step, job);
      case Abandon(w) => ForgottenAbandon(s, w, job);
      case Take(w, taken) => ForgottenTake(s, maxWorkers, w, taken, job);
      case _ => ForgottenWorker(s, maxWorkers, step, job);
    }
  }

  lemma ForgottenRow(s: System, step: Step, job: nat)
    requires step.Submit? || step.CancelRead? || step.CancelWrite? || step.CancelAtOnce? || step.Restart?
    ensures IsForgotten(Do(s, step), job) <==> IsForgotten(s, job) && !Frees(step, job) && step != Submit(job)
  {
    hide HasActive, WithNew, Ids, Started, Ended;
  }

  lemma ForgottenWorker(s: System, maxWorkers: nat, step: Step, job: nat)
    requires WorkersSane(s, maxWorkers) && Enabled(s, maxWorkers, step)
    requires step.Start? || step.Check? || step.Work? || step.Finish?
    ensures IsForgotten(Do(s, step), job) <==> IsForgotten(s, job)
  {
    hide HasActive, WithNew, Ids, CancelWritten, Resumed;
    var end, w := Do(s, step), step.worker;
    assert forall v :: v != w ==>
        (v in end.workers <==> v in s.workers) && (v in s.workers ==> end.workers[v] == s.workers[v]);
    assert s.workers[w].job == job ==> !IsForgotten(s, job);
    if s.workers[w].job == job && !step.Start? {
      assert Past(s, w);
    }
  }

  lemma ForgottenTake(s: System, maxWorkers: nat, w: nat, taken: nat, job: nat)
    requires Enabled(s, maxWorkers, Take(w, taken))
    ensures IsForgotten(Do(s, Take(w, taken)), job) <==> IsForgotten(s, job)
  {
    var end := Do(s, Take(w, taken));
    assert end.workers[w].job == taken;
    assert forall v :: v != w ==>
        (v in end.workers <==> v in s.workers) && (v in s.workers ==> end.workers[v] == s.workers[v]);
  }

  lemma ForgottenAbandon(s: System, w: nat, job: nat)
    requires w in s.workers
    ensures IsForgotten(Do(s, Abandon(w)), job) <==> Forgets(s, Abandon(w), job) || IsForgotten(s, job)
  {
    var end := Do(s, Abandon(w));
    assert forall v :: v in end.workers <==> v in s.workers && v != w;
  }

  lemma ForgottenCreate(s: System, maxWorkers: nat, step: Step, job: nat)
    requires IdsBelow(s.jobs, s.nextId) && KnownIds(s) && Enabled(s, maxWorkers, step) && step.Create?
    ensures IsForgotten(Do(s, step), job) <==> Forgets(s, step, job) || IsForgotten(s, job)
  {
    hide HasActive, Ids;
    IdsFrom(s.nextId, step.submitted, job);
  }

  lemma {:induction false} IdsFrom(first: nat, n: nat, job: nat)
    ensures job in Ids(first, n) <==> first <= job < first + n
  {
    if n > 0 {
      IdsFrom(first, n - 1, job);
    }
  }

  lemma {:induction false} ImageNotLarger(workers: map<nat, Worker>, jobs: set<nat>)
    requires forall job :: job in jobs ==> exists w :: w in workers && workers[w].job == job
    ensures |jobs| <= |workers|
    decreases jobs
  {
    if jobs != {} {
      var job :| job in jobs;
      var w :| w in workers && workers[w].job == job;
      var rest := workers - {w};
      forall other | other in jobs - {job} ensures exists v :: v in rest && rest[v].job == other {
        var v :| v in workers && workers[v].job == other;
        assert v in rest && rest[v].job == other;
      }
      ImageNotLarger(rest, jobs - {job});
      assert rest.Keys == workers.Keys - {w};
    }
  }

  lemma {:induction false} Below(keys: set<nat>, n: nat)
    requires forall k :: k in keys ==> k < n
    ensures |keys| <= n
  {
    if n == 0 {
      assert keys == {};
    } else {
      Below(keys - {n - 1}, n - 1);
      assert keys <= (keys - {n - 1}) + {n - 1};
      if n - 1 in keys {
        assert |keys| == |keys - {n - 1}| + 1;
      } else {
        assert keys - {n - 1} == keys;
      }
    }
  }

  // ---- one worker per mapping -----------------------------------------------

  /** Two workers meet on one mapping only while one of their jobs is a cancelled one that has not stopped yet. */
  lemma OverlapOnlyAfterCancel(s: System, maxWorkers: nat, v: nat, w: nat)
    requires Inv(s, maxWorkers) && Past(s, v) && Past(s, w) && v != w
    requires s.jobs[s.workers[v].job].mapping == s.jobs[s.workers[w].job].mapping
    ensures s.jobs[s.workers[v].job].status == CANCELLED || s.jobs[s.workers[w].job].status == CANCELLED
  {
  }

  /** No two workers are at work on one mapping. */
  ghost predicate Apart(s: System) {
    forall v, w :: Past(s, v) && Past(s, w) && v != w && s.workers[v].job in s.jobs && s.workers[w].job in s.jobs
      ==> s.jobs[s.workers[v].job].mapping != s.jobs[s.workers[w].job].mapping
  }

  /** The step starts a pending job while the worker of a cancelled job of the same mapping has not stopped. */
  ghost predicate StartsTooEarly(s: System, step: Step) {
    && step.Start? && step.worker in s.workers
    && var job := s.workers[step.worker].job;
    && job in s.jobs && s.jobs[job].status == PENDING
    && exists v :: Past(s, v) && s.workers[v].job in s.jobs && s.jobs[s.workers[v].job].mapping == s.jobs[job].mapping
         && s.jobs[s.workers[v].job].status == CANCELLED
  }

  /** Workers meet on a mapping exactly when a job is started before a cancelled one has stopped. */
  lemma OverlapExactly(s: System, maxWorkers: nat, step: Step)
    requires Inv(s, maxWorkers) && Apart(s) && Enabled(s, maxWorkers, step)
    ensures Apart(Do(s, step)) <==> !StartsTooEarly(s, step)
  {
    if step.Start? {
      StartApart(s, maxWorkers, step.worker);
    } else {
      OtherApart(s, maxWorkers, step);
    }
  }

  lemma OtherApart(s: System, maxWorkers: nat, step: Step)
    requires Inv(s, maxWorkers) && Apart(s) && Enabled(s, maxWorkers, step) && !step.Start?
    ensures Apart(Do(s, step))
  {
    hide Enabled, Do;
    var end := Do(s, step);
    forall v | Past(end, v) ensures Past(s, v) && s.workers[v].job == end.workers[v].job {
      StaysPast(s, maxWorkers, step, v);
    }
    forall job | job in s.jobs ensures job in end.jobs && end.jobs[job].mapping == s.jobs[job].mapping {
      MappingStays(s, maxWorkers, step, job);
    }
  }

  lemma StaysPast(s: System, maxWorkers: nat, step: Step, w: nat)
    requires Enabled(s, maxWorkers, step) && Past(Do(s, step), w) && !step.Start?
    ensures Past(s, w) && s.workers[w].job == Do(s, step).workers[w].job
  {
    hide HasActive, WithNew, Ended, CancelWritten, Resumed, Started, Ids;
  }

  lemma MappingStays(s: System, maxWorkers: nat, step: Step, job: nat)
    requires Inv(s, maxWorkers) && Enabled(s, maxWorkers, step) && job in s.jobs
    ensures job in Do(s, step).jobs && Do(s, step).jobs[job].mapping == s.jobs[job].mapping
  {
    hide OneActive, WorkersSane, HasActive, WithNew;
    assert job < s.nextId;
  }

  lemma StartApart(s: System, maxWorkers: nat, w: nat)
    requires Inv(s, maxWorkers) && Apart(s) && Enabled(s, maxWorkers, Start(w))
    ensures Apart(Do(s, Start(w))) <==> !StartsTooEarly(s, Start(w))
  {
    hide HasActive, KnownIds, IdsBelow;
    var end, job := Do(s, Start(w)), s.workers[w].job;
    forall j | j in s.jobs ensures j in end.jobs && end.jobs[j].mapping == s.jobs[j].mapping {
      MappingStays(s, maxWorkers, Start(w), j);
    }
    assert forall v :: v != w ==> (Past(end, v) <==> Past(s, v));
    if job in s.jobs && s.jobs[job].status == PENDING {
      assert Past(end, w);
      assert forall v :: Past(s, v) && s.jobs[s.workers[v].job].status != CANCELLED ==>
          s.jobs[s.workers[v].job].mapping != s.jobs[job].mapping;
    }
  }

  /** That happens: cancel a running job and start another one before the worker looks again. */
  lemma OverlapHappens() returns (steps: seq<Step>, end: System)
    ensures Possible(EMPTY, 2, steps) && end == After(EMPTY, steps)
    ensures Past(end, 0) && Past(end, 1) && end.workers[0].job in end.jobs && end.workers[1].job in end.jobs
    ensures end.jobs[end.workers[0].job].mapping == end.jobs[end.workers[1].job].mapping
  {
    OneRuns(2);
    SecondJob();
    BothWork();
    hide Do, Enabled, Possible, After;
    Chain(EMPTY, 2, RUN_STEPS, ONE_RUNS, SECOND_STEPS, SECOND_TAKEN, Start(1));
    steps, end := RUN_STEPS + (SECOND_STEPS + [Start(1)]), Do(SECOND_TAKEN, Start(1));
  }

  const SECOND_STEPS := [CancelAtOnce(0), Create([7], EVERYTHING, None, 1), Take(1, 1)]
  const TWO_JOBS := map[0 := RUNNING_JOB.(status := CANCELLED), 1 := RUNNING_JOB.(status := PENDING)]
  const SECOND_TAKEN := System(TWO_JOBS, 2, multiset{}, map[0 := Worker(0, AtCheck), 1 := Worker(1, Taken)], multiset{})

  lemma SecondJob()
    ensures Possible(ONE_RUNS, 2, SECOND_STEPS) && After(ONE_RUNS, SECOND_STEPS) == SECOND_TAKEN
  {
    var s4 := ONE_RUNS.(jobs := map[0 := RUNNING_JOB.(status := CANCELLED)]);
    var s5 := System(TWO_JOBS, 2, multiset{1}, ONE_RUNS.workers, multiset{});
    assert Do(ONE_RUNS, SECOND_STEPS[0]) == s4;
    assert !HasActive(s4.jobs, 7);
    assert WithNew(s4.jobs, 1, [7], EVERYTHING, None) == s5.jobs;
    assert Ids(1, 1) == multiset{1};
    assert Do(s4, SECOND_STEPS[1]) == s5;
    assert Do(s5, SECOND_STEPS[2]) == SECOND_TAKEN;
    Three(ONE_RUNS, 2, SECOND_STEPS, SECOND_TAKEN);
  }

  lemma BothWork()
    ensures Enabled(SECOND_TAKEN, 2, Start(1))
    ensures var end := Do(SECOND_TAKEN, Start(1));
            && Past(end, 0) && Past(end, 1) && end.workers[0].job in end.jobs && end.workers[1].job in end.jobs
            && end.jobs[end.workers[0].job].mapping == end.jobs[end.workers[1].job].mapping
  {
  }
}
