/** The job table and its writers (app/web/routes/jobs.py, app/jobs/resync.py, app/jobs/scheduler.py). */
module Jobs {
  import opened Wrappers
  import opened Runner

  datatype Job = Job(mapping: nat, options: Options, mailSinceDate: Option<int>, status: JobStatus)

  /** A resync is a real run over all three categories. */
  const RESYNC_OPTIONS := Options(RESYNC, true, true, true, false)

  type JobTable = map<nat, Job>

  predicate IsActive(job: Job) {
    job.status == PENDING || job.status == RUNNING
  }

  /** `has_active_job_for_mapping`. */
  predicate HasActive(jobs: JobTable, mapping: nat) {
    exists id :: id in jobs && jobs[id].mapping == mapping && IsActive(jobs[id])
  }

  ghost predicate OneActive(jobs: JobTable) {
    forall a, b :: a in jobs && b in jobs && a != b && IsActive(jobs[a]) && IsActive(jobs[b])
      ==> jobs[a].mapping != jobs[b].mapping
  }

  ghost predicate IdsBelow(jobs: JobTable, next: nat) {
    forall id :: id in jobs ==> id < next
  }

  // ---- status writes --------------------------------------------------------

  /** The guarded update that starts a job. */
  function Started(jobs: JobTable, id: nat): JobTable {
    if id in jobs && jobs[id].status == PENDING then jobs[id := jobs[id].(status := RUNNING)] else jobs
  }

  /** The guarded terminal update. */
  function Ended(jobs: JobTable, id: nat, completed: bool): JobTable {
    if id in jobs && jobs[id].status == RUNNING then
      jobs[id := jobs[id].(status := if completed then COMPLETED else FAULTED)]
    else jobs
  }

  /** The write of `cancel`, which has no guard of its own. */
  function CancelWritten(jobs: JobTable, id: nat): JobTable {
    if id in jobs then jobs[id := jobs[id].(status := CANCELLED)] else jobs
  }

  /** Startup: every job left running is pending again. */
  function Resumed(jobs: JobTable): JobTable {
    map id | id in jobs :: if jobs[id].status == RUNNING then jobs[id].(status := PENDING) else jobs[id]
  }

  function Running(jobs: JobTable): set<nat> {
    set id | id in jobs && jobs[id].status == RUNNING
  }

  function Pending(jobs: JobTable): set<nat> {
    set id | id in jobs && jobs[id].status == PENDING
  }

  /** New pending jobs with consecutive ids. */
  function WithNew(jobs: JobTable, next: nat, mappings: seq<nat>, options: Options,
                   mailSinceDate: Option<int>): (r: JobTable)
    ensures forall id :: id in r <==> id in jobs || next <= id < next + |mappings|
    ensures forall id :: next <= id < next + |mappings| ==>
              r[id] == Job(mappings[id - next], options, mailSinceDate, PENDING)
    ensures forall id :: id in jobs && !(next <= id < next + |mappings|) ==> r[id] == jobs[id]
  {
    if |mappings| == 0 then jobs
    else
      var n := |mappings| - 1;
      var before := WithNew(jobs, next, mappings[..n], options, mailSinceDate);
      before[next + n := Job(mappings[n], options, mailSinceDate, PENDING)]
  }

  /** `added` are new pending jobs for mappings that had no active job, at most one for each. */
  ghost predicate Adds(before: JobTable, after: JobTable, next: nat, added: seq<nat>) {
    (forall id :: id in before ==> id in after && after[id] == before[id])
    && (forall id :: id in after <==> id in before || next <= id < next + |added|)
    && (forall id :: next <= id < next + |added| ==>
          after[id].mapping == added[id - next] && after[id].status == PENDING)
    && (forall k :: 0 <= k < |added| ==> !HasActive(before, added[k]))
    && (forall j, k :: 0 <= j < k < |added| ==> added[j] != added[k])
  }

  lemma WithNewAdds(jobs: JobTable, next: nat, mappings: seq<nat>, options: Options, mailSinceDate: Option<int>)
    requires IdsBelow(jobs, next)
    requires forall k :: 0 <= k < |mappings| ==> !HasActive(jobs, mappings[k])
    requires forall j, k :: 0 <= j < k < |mappings| ==> mappings[j] != mappings[k]
    ensures Adds(jobs, WithNew(jobs, next, mappings, options, mailSinceDate), next, mappings)
  {
    hide HasActive;
  }

  lemma AddsKeepsOneActive(before: JobTable, after: JobTable, next: nat, added: seq<nat>)
    requires OneActive(before) && IdsBelow(before, next) && Adds(before, after, next, added)
    ensures OneActive(after) && IdsBelow(after, next + |added|)
  {
    forall a, b | a in after && b in after && a != b && IsActive(after[a]) && IsActive(after[b])
      ensures after[a].mapping != after[b].mapping
    {
      if a >= next && b < next {
        assert !HasActive(before, added[a - next]);
        assert b in before && IsActive(before[b]);
      } else if b >= next && a < next {
        assert !HasActive(before, added[b - next]);
        assert a in before && IsActive(before[a]);
      }
    }
  }

  // ---- the writers ----------------------------------------------------------

  class Database {
    var jobs: JobTable
    var nextId: nat
    var watermarks: map<nat, Option<int>>

    ghost predicate Valid()
      reads this
    {
      IdsBelow(jobs, nextId)
    }

    constructor ()
      ensures Valid() && jobs == map[] && nextId == 0 && OneActive(jobs)
    {
      jobs, nextId, watermarks := map[], 0, map[];
    }

    /**
     The batch loop of `create_jobs`. New rows stay in the session until the commit, invisible to
     the check for active jobs, so repeated ids are caught by `seen` alone.
     */
    method CreateJobs(mappingIds: seq<nat>, options: Options, mailSinceDate: Option<int>)
      returns (created: seq<nat>, skipped: seq<nat>)
      requires Valid()
      modifies `jobs, `nextId
      ensures Valid() && nextId == old(nextId) + |created|
      ensures Adds(old(jobs), jobs, old(nextId), created)
      ensures jobs == WithNew(old(jobs), old(nextId), created, options.(jobType := INITIAL), mailSinceDate)
      ensures multiset(created) + multiset(skipped) == multiset(mappingIds)
      ensures forall m :: m in mappingIds ==> HasActive(jobs, m)
      ensures old(OneActive(jobs)) ==> OneActive(jobs)
    {
      created, skipped := [], [];
      var seen: set<nat> := {};
      for i := 0 to |mappingIds|
        invariant multiset(created) + multiset(skipped) == multiset(mappingIds[..i])
        invariant forall m :: m in seen <==> m in created
        invariant forall m :: m in created ==> !HasActive(jobs, m)
        invariant forall j, k :: 0 <= j < k < |created| ==> created[j] != created[k]
        invariant forall m :: m in mappingIds[..i] ==> m in created || HasActive(jobs, m)
      {
        var m := mappingIds[i];
        assert mappingIds[..i + 1] == mappingIds[..i] + [m];
        if m in seen || HasActive(jobs, m) {
          skipped := skipped + [m];
        } else {
          seen := seen + {m};
          created := created + [m];
        }
      }
      assert mappingIds[..|mappingIds|] == mappingIds;
      ghost var before := jobs;
      CommitNew(created, options.(jobType := INITIAL), mailSinceDate);
      WithNewAdds(before, old(nextId), created, options.(jobType := INITIAL), mailSinceDate);
      forall m | m in mappingIds ensures HasActive(jobs, m) {
        ActiveAfter(before, jobs, old(nextId), created, m);
      }
      if old(OneActive(jobs)) {
        AddsKeepsOneActive(before, jobs, old(nextId), created);
      }
    }

    /** The commit that inserts the pending session rows with consecutive ids. */
    method CommitNew(mappings: seq<nat>, options: Options, mailSinceDate: Option<int>)
      requires Valid()
      modifies `jobs, `nextId
      ensures Valid() && nextId == old(nextId) + |mappings|
      ensures jobs == WithNew(old(jobs), old(nextId), mappings, options, mailSinceDate)
    {
      ghost var first := nextId;
      for k := 0 to |mappings|
        invariant nextId == first + k
        invariant jobs == WithNew(old(jobs), first, mappings[..k], options, mailSinceDate)
      {
        assert mappings[..k + 1][..k] == mappings[..k];
        jobs := jobs[nextId := Job(mappings[k], options, mailSinceDate, PENDING)];
        nextId := nextId + 1;
      }
      assert mappings[..|mappings|] == mappings;
    }

    /** `create_resync_job`: refused without a finished initial migration or beside an active job. */
    method CreateResyncJob(mapping: nat) returns (created: bool)
      requires Valid()
      modifies `jobs, `nextId
      ensures Valid()
      ensures created == (mapping in watermarks && watermarks[mapping].Some? && !old(HasActive(jobs, mapping)))
      ensures nextId == old(nextId) + if created then 1 else 0
      ensures Adds(old(jobs), jobs, old(nextId), if created then [mapping] else [])
      ensures AreResyncs(jobs, old(nextId), if created then [mapping] else [], watermarks)
      ensures created ==>
                jobs == WithNew(old(jobs), old(nextId), [mapping], RESYNC_OPTIONS,
                                Some(watermarks[mapping].value - RESYNC_BUFFER))
    {
      created := mapping in watermarks && watermarks[mapping].Some? && !HasActive(jobs, mapping);
      if created {
        var since := Some(watermarks[mapping].value - RESYNC_BUFFER);
        CommitNew([mapping], RESYNC_OPTIONS, since);
        WithNewAdds(old(jobs), old(nextId), [mapping], RESYNC_OPTIONS, since);
      }
    }

    /**
     `create_resync_jobs_for_all`, over the mappings that have a watermark; each job is its own commit.
     A mapping gets a job exactly when it had no active one, and is skipped otherwise.
     */
    method CreateResyncJobsForAll(mappings: seq<nat>) returns (created: seq<nat>, skipped: seq<nat>)
      requires Valid() && forall m :: m in mappings ==> m in watermarks && watermarks[m].Some?
      modifies `jobs, `nextId
      ensures Valid() && (old(OneActive(jobs)) ==> OneActive(jobs)) && nextId == old(nextId) + |created|
      ensures Adds(old(jobs), jobs, old(nextId), created)
      ensures AreResyncs(jobs, old(nextId), created, watermarks)
      ensures multiset(created) + multiset(skipped) == multiset(mappings)
      ensures forall m :: m in mappings ==> (m in created <==> !old(HasActive(jobs, m)))
    {
      hide HasActive, OneActive, IdsBelow, AreResyncs, Adds, WithNew;
      created, skipped := [], [];
      ghost var before, first := jobs, nextId;
      NothingAdded(before, first, watermarks);
      for i := 0 to |mappings|
        invariant Valid() && (OneActive(before) ==> OneActive(jobs)) && nextId == first + |created|
        invariant Adds(before, jobs, first, created)
        invariant AreResyncs(jobs, first, created, watermarks)
        invariant multiset(created) + multiset(skipped) == multiset(mappings[..i])
        invariant forall m :: m in mappings[..i] ==> (m in created <==> !HasActive(before, m))
      {
        var m := mappings[i];
        assert mappings[..i + 1] == mappings[..i] + [m];
        var isNew := AddResync(m, before, first, created);
        if isNew {
          created := created + [m];
        } else {
          skipped := skipped + [m];
        }
      }
      assert mappings[..|mappings|] == mappings;
    }

    /** One more resync after those already added, if its mapping has no active job by now. */
    method AddResync(m: nat, ghost before: JobTable, ghost first: nat, ghost added: seq<nat>) returns (isNew: bool)
      requires Valid() && m in watermarks && watermarks[m].Some? && nextId == first + |added|
      requires Adds(before, jobs, first, added) && AreResyncs(jobs, first, added, watermarks)
      requires OneActive(before) ==> OneActive(jobs)
      modifies `jobs, `nextId
      ensures Valid() && (OneActive(before) ==> OneActive(jobs))
      ensures isNew <==> m !in added && !HasActive(before, m)
      ensures m in added ==> !HasActive(before, m)
      ensures var now := if isNew then added + [m] else added;
              nextId == first + |now| && Adds(before, jobs, first, now) && AreResyncs(jobs, first, now, watermarks)
    {
      hide HasActive, OneActive, IdsBelow, AreResyncs, Adds, WithNew;
      ghost var mid := jobs;
      ActiveAdded(before, mid, first, added, m);
      isNew := CreateResyncJob(m);
      if isNew {
        if OneActive(before) {
          AddsKeepsOneActive(mid, jobs, first + |added|, [m]);
        }
        AddsOneMore(before, mid, jobs, first, added, m);
        OneMoreResync(mid, jobs, first, added, m, watermarks);
      } else {
        NothingChanged(mid, jobs, first + |added|);
      }
    }

    /** The guarded start of `run`. */
    method TryStart(id: nat) returns (won: bool)
      modifies `jobs
      ensures jobs == Started(old(jobs), id) && won == (id in old(jobs) && old(jobs)[id].status == PENDING)
    {
      won := id in jobs && jobs[id].status == PENDING;
      if won {
        jobs := jobs[id := jobs[id].(status := RUNNING)];
      }
    }

    /** The guarded terminal update of `run`. */
    method TryEnd(id: nat, completed: bool) returns (written: bool)
      modifies `jobs
      ensures jobs == Ended(old(jobs), id, completed) && written == (id in old(jobs) && old(jobs)[id].status == RUNNING)
    {
      written := id in jobs && jobs[id].status == RUNNING;
      if written {
        jobs := jobs[id := jobs[id].(status := if completed then COMPLETED else FAULTED)];
      }
    }

    /** The read of `cancel`: whether the write will follow. */
    method CancelRead(id: nat) returns (found: bool)
      ensures found == (id in jobs && IsActive(jobs[id]))
    {
      found := id in jobs && IsActive(jobs[id]);
    }

    /** The write of `cancel`. */
    method CancelWrite(id: nat)
      modifies `jobs
      ensures jobs == CancelWritten(old(jobs), id)
    {
      if id in jobs {
        jobs := jobs[id := jobs[id].(status := CANCELLED)];
      }
    }

    /** `resume_incomplete_jobs`: every stuck or pending job is submitted once. */
    method ResumeIncompleteJobs() returns (submitted: set<nat>)
      modifies `jobs
      ensures jobs == Resumed(old(jobs))
      ensures submitted == Pending(jobs)
      ensures forall id :: id in submitted <==> id in old(jobs) && IsActive(old(jobs)[id])
    {
      var stuck := set id | id in jobs && jobs[id].status == RUNNING;
      var rest := stuck;
      while rest != {}
        invariant rest <= stuck && jobs.Keys == old(jobs).Keys
        invariant forall id :: id in jobs ==>
          jobs[id] == if id in stuck - rest then old(jobs)[id].(status := PENDING) else old(jobs)[id]
        decreases rest
      {
        var id :| id in rest;
        jobs := jobs[id := jobs[id].(status := PENDING)];
        rest := rest - {id};
      }
      var pending := set id | id in jobs && jobs[id].status == PENDING;
      submitted := stuck + pending;
    }
  }

  /** The new rows are pending resyncs of these mappings, with the buffered watermark as their mail date. */
  predicate AreResyncs(jobs: JobTable, first: nat, added: seq<nat>, watermarks: map<nat, Option<int>>) {
    forall k :: 0 <= k < |added| ==>
      first + k in jobs && added[k] in watermarks && watermarks[added[k]].Some?
      && jobs[first + k] == Job(added[k], Options(RESYNC, true, true, true, false),
                                Some(watermarks[added[k]].value - RESYNC_BUFFER), PENDING)
  }

  lemma NothingAdded(jobs: JobTable, first: nat, watermarks: map<nat, Option<int>>)
    ensures Adds(jobs, jobs, first, []) && AreResyncs(jobs, first, [], watermarks)
  {
  }

  lemma NothingChanged(before: JobTable, after: JobTable, next: nat)
    requires Adds(before, after, next, [])
    ensures after == before
  {
  }

  lemma OneMoreResync(before: JobTable, after: JobTable, first: nat, added: seq<nat>, m: nat,
                      watermarks: map<nat, Option<int>>)
    requires AreResyncs(before, first, added, watermarks) && m in watermarks && watermarks[m].Some?
    requires after == WithNew(before, first + |added|, [m], RESYNC_OPTIONS, Some(watermarks[m].value - RESYNC_BUFFER))
    ensures AreResyncs(after, first, added + [m], watermarks)
  {
  }

  /** After some jobs were added, a mapping is active when it was before or is among them. */
  lemma ActiveAdded(before: JobTable, after: JobTable, next: nat, added: seq<nat>, m: nat)
    requires Adds(before, after, next, added)
    ensures HasActive(after, m) <==> m in added || HasActive(before, m)
    ensures m in added ==> !HasActive(before, m)
  {
    if m in added || HasActive(before, m) {
      ActiveAfter(before, after, next, added, m);
    }
    if HasActive(after, m) {
      var id :| id in after && after[id].mapping == m && IsActive(after[id]);
      assert id !in before ==> added[id - next] == m;
      assert id in before ==> before[id] == after[id];
    }
  }

  lemma AddsOneMore(before: JobTable, mid: JobTable, after: JobTable, next: nat, added: seq<nat>, m: nat)
    requires Adds(before, mid, next, added) && Adds(mid, after, next + |added|, [m])
    ensures Adds(before, after, next, added + [m])
  {
    ActiveAdded(before, mid, next, added, m);
    assert m !in added && !HasActive(before, m) by {
      assert [m][0] == m;
    }
  }

  lemma ActiveAfter(before: JobTable, after: JobTable, next: nat, added: seq<nat>, m: nat)
    requires Adds(before, after, next, added) && (m in added || HasActive(before, m))
    ensures HasActive(after, m)
  {
    if m in added {
      var k :| 0 <= k < |added| && added[k] == m;
      assert next + k in after && IsActive(after[next + k]);
    } else {
      ActiveStays(before, after, m);
    }
  }

  lemma ActiveStays(before: JobTable, after: JobTable, m: nat)
    requires forall id :: id in before ==> id in after && after[id] == before[id]
    ensures HasActive(before, m) ==> HasActive(after, m)
  {
    if HasActive(before, m) {
      var id :| id in before && before[id].mapping == m && IsActive(before[id]);
      assert id in after && after[id].mapping == m;
    }
  }
}
