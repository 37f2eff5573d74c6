/**
  The coordinator's tables as its functions change them (src/coordinator/store.ts), one
  transaction a method, and the deduplicated creation of artifact maintenance tasks.
*/
module JobStore {
  import opened Common
  import opened Queries
  import opened Lease

  lemma SelectionIs<I>(s: State<I>, picked: seq<Id>, staleBefore: int, limit: nat, locks: Locks)
    ensures Selection(s, picked, staleBefore, limit, locks) <==> OldestFirst(Beats(s), StaleRuns(s, staleBefore, locks), picked, limit)
  {
  }

  class Jobs<I> {
    var jobs: map<Id, Job<I>>
    var runs: map<Id, Run>
    var nextJob: Id
    var nextRun: Id

    function View(): State<I>
      reads this
    {
      State(jobs, runs, nextJob, nextRun)
    }

    constructor ()
      ensures View() == Empty()
    {
      jobs, runs, nextJob, nextRun := map[], map[], 1, 1;
    }

    method CreateJob(info: I) returns (id: Id)
      modifies this
      ensures id == old(nextJob) && View() == Create(old(View()), info)
    {
      id := nextJob;
      jobs, nextJob := jobs[id := Job(info, Open, None, None, None, None)], nextJob + 1;
    }

    /** UPDATE … WHERE status = 'open', then INSERT of the run; nothing happens when no row matched. */
    method ClaimById(job: Id, worker: Text, agent: Option<Text>, now: int) returns (run: Option<Id>)
      modifies this
      ensures (View(), run) == Claim(old(View()), job, worker, agent, now)
    {
      if job !in jobs || !jobs[job].status.Open? { return None; }
      jobs := jobs[job := jobs[job].(status := Assigned, worker := Some(worker), agent := agent)];
      run := Some(nextRun);
      runs, nextRun := runs[nextRun := Run(job, worker, agent, Running, now, Some(now), None, None)], nextRun + 1;
    }

    /** An open job of a wanted kind that no other transaction holds. */
    predicate IsOpenFor(job: Id, locks: Locks, wanted: I -> bool)
      reads this
    {
      job in jobs && jobs[job].status == Open && job !in locks.jobs && wanted(jobs[job].info)
    }

    /** Claims the smallest open job that is wanted and not locked, if there is one. */
    method ClaimNext(worker: Text, agent: Option<Text>, now: int, locks: Locks, wanted: I -> bool)
        returns (claimed: Option<(Id, Id)>)
      modifies this
      ensures claimed.None? ==> View() == old(View()) && forall j :: !IsOpenFor(j, locks, wanted)
      ensures claimed.Some? ==>
        && IsNext(old(View()), claimed.value.0, locks, wanted)
        && old(IsOpenFor(claimed.value.0, locks, wanted)) && (forall j :: old(IsOpenFor(j, locks, wanted)) ==> claimed.value.0 <= j)
        && (View(), Some(claimed.value.1)) == Claim(old(View()), claimed.value.0, worker, agent, now)
    {
      var s := View();
      var open := set j | j in jobs && Claimable(s, j, locks, wanted);
      assert forall j :: j in jobs && Claimable(s, j, locks, wanted) ==> j in open;
      assert forall j :: IsOpenFor(j, locks, wanted) <==> j in open;
      if open == {} { return None; }
      ghost var least := SmallestId(open);
      assert IsNext(s, least, locks, wanted);
      var job :| job in open && forall j :: j in open ==> job <= j;
      assert IsNext(s, job, locks, wanted);
      var run := ClaimById(job, worker, agent, now);
      claimed := Some((job, run.value));
    }

    method CompleteJob(job: Id, run: Id, result: Text)
      modifies this
      ensures View() == Complete(old(View()), job, run, result)
    {
      if job in jobs { jobs := jobs[job := jobs[job].(status := Completed, result := Some(result))]; }
      if run in runs { runs := runs[run := runs[run].(status := RunCompleted, result := Some(result))]; }
    }

    method FailJob(job: Id, run: Id, reason: Text)
      modifies this
      ensures View() == Fail(old(View()), job, run, reason)
    {
      var why := Some(Truncated(reason));
      if job in jobs { jobs := jobs[job := jobs[job].(status := Failed, failure := why)]; }
      if run in runs { runs := runs[run := runs[run].(status := RunFailed, failure := why)]; }
    }

    method HeartbeatRun(job: Id, run: Id, worker: Option<Text>, agent: Option<Text>, now: int) returns (updated: bool)
      modifies `runs
      ensures updated <==> Alive(old(View()), job, run, worker, agent)
      ensures View() == Heartbeat(old(View()), job, run, worker, agent, now)
    {
      updated := Alive(View(), job, run, worker, agent);
      if updated { runs := runs[run := runs[run].(heartbeat := Some(now))]; }
    }

    /** Fails the stale runs one by one and reopens their jobs. */
    method ExpireStale(staleBefore: int, requested: Option<int>, locks: Locks) returns (picked: seq<Id>)
      modifies this
      ensures Selection(old(View()), picked, staleBefore, Limit(requested), locks)
      ensures View() == ExpireAll(old(View()), picked)
    {
      hide Selection;
      var s := View();
      picked := SelectOldest(Beats(s), StaleRuns(s, staleBefore, locks), Limit(requested));
      assert Selection(s, picked, staleBefore, Limit(requested), locks) by { SelectionIs(s, picked, staleBefore, Limit(requested), locks); }
      for i := 0 to |picked|
        invariant ExpireAll(View(), picked[i..]) == ExpireAll(old(View()), picked)
      {
        assert picked[i..][1..] == picked[i + 1..];
        var run := picked[i];
        if run in runs {
          var job := runs[run].job;
          runs := runs[run := runs[run].(status := RunFailed, failure := Some("heartbeat_timeout"))];
          if job in jobs { jobs := jobs[job := jobs[job].(status := Open, worker := None, agent := None)]; }
        }
      }
      assert picked[|picked|..] == [];
    }
  }
}
