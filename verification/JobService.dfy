/** The methods of the running program take the steps of the protocol. */
module JobService {
  import opened Wrappers
  import opened Runner
  import opened Jobs
  import opened JobProtocol

  /** The job table with the queue and the workers of the pool, and the cancels that have read their row. */
  class Service {
    const db: Database
    const maxWorkers: nat
    var queue: multiset<nat>
    var workers: map<nat, Worker>
    var cancels: multiset<nat>

    ghost function State(): System
      reads this, db
    {
      System(db.jobs, db.nextId, queue, workers, cancels)
    }

    ghost predicate Valid()
      reads this, db
    {
      Inv(State(), maxWorkers)
    }

    constructor (maxWorkers: nat)
      ensures Valid() && fresh(db) && State() == EMPTY && this.maxWorkers == maxWorkers
    {
      this.maxWorkers := maxWorkers;
      queue, workers, cancels := multiset{}, map[], multiset{};
      db := new Database();
    }

    /**
     `create_jobs`: the batch is inserted, then each of its jobs read again and submitted. After `calls`
     of these one may raise, and the rest stay pending without being queued.
     */
    method CreateJobs(mappingIds: seq<nat>, options: Options, mailSinceDate: Option<int>, calls: nat)
      returns (created: seq<nat>, skipped: seq<nat>)
      requires Valid()
      modifies this`queue, db`jobs, db`nextId
      ensures Valid()
      ensures var step := Create(created, options.(jobType := INITIAL), mailSinceDate, if calls < |created| then calls
              else |created|);
              Enabled(old(State()), maxWorkers, step) && State() == Do(old(State()), step)
      ensures multiset(created) + multiset(skipped) == multiset(mappingIds)
    {
      hide Adds, HasActive, WithNew, Inv;
      ghost var before := State();
      var first := db.nextId;
      InvIsValid(before, maxWorkers);
      created, skipped := db.CreateJobs(mappingIds, options, mailSinceDate);
      var submitted := if calls < |created| then calls else |created|;
      SubmitAll(first, submitted);
      AddedIsEnabled(before, maxWorkers, db.jobs,
                     Create(created, options.(jobType := INITIAL), mailSinceDate, submitted));
      StepKeeps(before, maxWorkers, Create(created, options.(jobType := INITIAL), mailSinceDate, submitted));
    }

    /** The resync of one mapping; the read of the new row or its submit may raise. */
    method Resync(mapping: nat, submits: bool) returns (created: bool)
      requires Valid()
      modifies this`queue, db`jobs, db`nextId
      ensures Valid()
      ensures created == (mapping in db.watermarks && db.watermarks[mapping].Some? && !old(HasActive(db.jobs, mapping)))
      ensures !created ==> State() == old(State())
      ensures created ==>
                var since := Some(db.watermarks[mapping].value - RESYNC_BUFFER);
                var step := Create([mapping], RESYNC_OPTIONS, since, if submits then 1 else 0);
                Enabled(old(State()), maxWorkers, step) && State() == Do(old(State()), step)
    {
      hide Adds, HasActive, WithNew, Inv;
      ghost var before := State();
      var first := db.nextId;
      InvIsValid(before, maxWorkers);
      created := db.CreateResyncJob(mapping);
      if created {
        var since := Some(db.watermarks[mapping].value - RESYNC_BUFFER);
        var submitted := if submits then 1 else 0;
        SubmitAll(first, submitted);
        AddedIsEnabled(before, maxWorkers, db.jobs, Create([mapping], RESYNC_OPTIONS, since, submitted));
        StepKeeps(before, maxWorkers, Create([mapping], RESYNC_OPTIONS, since, submitted));
      } else {
        NothingChanged(before.jobs, db.jobs, first);
      }
    }

    /** The resync of all mappings: each job is committed on its own, and then they are submitted in order. */
    method ResyncAll(mappings: seq<nat>, calls: nat) returns (created: seq<nat>, skipped: seq<nat>)
      requires Valid() && forall m :: m in mappings ==> m in db.watermarks && db.watermarks[m].Some?
      modifies this`queue, db`jobs, db`nextId
      ensures Valid() && db.nextId == old(db.nextId) + |created|
      ensures Adds(old(db.jobs), db.jobs, old(db.nextId), created)
      ensures AreResyncs(db.jobs, old(db.nextId), created, db.watermarks)
      ensures queue == old(queue) + Ids(old(db.nextId), if calls < |created| then calls else |created|)
      ensures multiset(created) + multiset(skipped) == multiset(mappings)
      ensures forall m :: m in mappings ==> (m in created <==> !old(HasActive(db.jobs, m)))
    {
      hide Adds, HasActive, AreResyncs, Inv;
      ghost var before := State();
      var first := db.nextId;
      InvIsValid(before, maxWorkers);
      created, skipped := db.CreateResyncJobsForAll(mappings);
      var submitted := if calls < |created| then calls else |created|;
      SubmitAll(first, submitted);
      AddedKeeps(before, maxWorkers, State(), created, submitted);
    }

    /** `submit` for each new job. */
    method SubmitAll(first: nat, n: nat)
      modifies this`queue
      ensures queue == old(queue) + Ids(first, n)
    {
      for k := 0 to n
        invariant queue == old(queue) + Ids(first, k)
      {
        queue := queue + multiset{first + k};
      }
    }

    /**
     The guarded start. The worker that wins it is the only one past the start of its job, and the job
     was pending; for the others no row changes.
     */
    method Start(w: nat) returns (won: bool)
      requires Valid() && w in workers && workers[w].phase == Taken
      modifies this`workers, db`jobs
      ensures Valid() && State() == Do(old(State()), JobProtocol.Start(w))
      ensures won <==> Past(State(), w)
      ensures won ==> forall v :: Past(State(), v) && v != w ==> workers[v].job != old(workers[w].job)
      ensures won ==> old(workers[w].job) in old(db.jobs) && old(db.jobs)[old(workers[w].job)].status == PENDING
      ensures !won ==> db.jobs == old(db.jobs)
    {
      ghost var before := State();
      var job := workers[w].job;
      won := db.TryStart(job);
      if won {
        workers := workers[w := Worker(job, AtCheck)];
      } else {
        workers := workers - {w};
      }
      StepKeeps(before, maxWorkers, JobProtocol.Start(w));
    }

    /** The guarded terminal update. It finds the job running unless a cancel came first, which then stands. */
    method Finish(w: nat, completed: bool) returns (written: bool)
      requires Valid() && Past(State(), w)
      modifies this`workers, db`jobs
      ensures Valid() && State() == Do(old(State()), JobProtocol.Finish(w, completed))
      ensures var job := old(workers[w].job);
              job in db.jobs
              && db.jobs[job].status == if !written then CANCELLED else if completed then COMPLETED else FAULTED
      ensures !HasWorker(State(), old(workers[w].job))
    {
      ghost var before := State();
      var job := workers[w].job;
      written := db.TryEnd(job, completed);
      workers := workers - {w};
      StepKeeps(before, maxWorkers, JobProtocol.Finish(w, completed));
      WorkerStep(before, maxWorkers, JobProtocol.Finish(w, completed), job);
    }

    /** The read of `cancel`; the write follows only if it found an active job. */
    method CancelRead(job: nat) returns (found: bool)
      requires Valid()
      modifies this`cancels
      ensures Valid() && found == Enabled(old(State()), maxWorkers, JobProtocol.CancelRead(job))
      ensures State() == if found then Do(old(State()), JobProtocol.CancelRead(job)) else old(State())
    {
      hide Inv;
      ghost var before := State();
      found := db.CancelRead(job);
      if found {
        cancels := cancels + multiset{job};
        StepKeeps(before, maxWorkers, JobProtocol.CancelRead(job));
      }
    }

    /** The write of `cancel`, whatever has happened since its read. */
    method CancelWrite(job: nat)
      requires Valid() && job in cancels
      modifies this`cancels, db`jobs
      ensures Valid() && State() == Do(old(State()), JobProtocol.CancelWrite(job))
    {
      hide Inv;
      ghost var before := State();
      db.CancelWrite(job);
      cancels := cancels - multiset{job};
      StepKeeps(before, maxWorkers, JobProtocol.CancelWrite(job));
    }

    /** Startup after a stop or a crash: queue, workers and cancels are gone, and incomplete jobs submitted. */
    method Restart()
      requires Valid()
      modifies this`queue, this`workers, this`cancels, db`jobs
      ensures Valid() && State() == Do(old(State()), JobProtocol.Restart)
      ensures Stranded(State()) == {} && forall job :: job in queue <==> job in db.jobs && IsActive(db.jobs[job])
    {
      hide Inv, Stranded, Resumed;
      ghost var before := State();
      workers, cancels := map[], multiset{};
      var submitted := db.ResumeIncompleteJobs();
      queue := multiset(submitted);
      StepKeeps(before, maxWorkers, JobProtocol.Restart);
      RestartFreesAll(before);
      ActiveIsPending(before.jobs);
    }
  }

  lemma ActiveIsPending(jobs: JobTable)
    ensures forall job :: job in Pending(Resumed(jobs)) <==> job in Resumed(jobs) && IsActive(Resumed(jobs)[job])
  {
  }

  lemma InvIsValid(s: System, maxWorkers: nat)
    requires Inv(s, maxWorkers)
    ensures IdsBelow(s.jobs, s.nextId)
  {
  }

  lemma AddedIsEnabled(s: System, maxWorkers: nat, after: JobTable, step: Step)
    requires step.Create? && Adds(s.jobs, after, s.nextId, step.mappings) && step.submitted <= |step.mappings|
    ensures Enabled(s, maxWorkers, step)
  {
  }
}
