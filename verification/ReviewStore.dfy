/** The review tables as src/review/store.ts changes them, one transaction a method. */
module ReviewStore {
  import opened Common
  import opened Queries
  import opened Review

  class ReviewTables {
    var tasks: map<Id, Task>
    var runs: map<Id, Run>
    var submissions: map<Id, Submission>
    var nextTask: Id
    var nextRun: Id
    var nextSubmission: Id

    function View(): State
      reads this
    {
      State(tasks, runs, submissions, nextTask, nextRun, nextSubmission)
    }

    constructor ()
      ensures View() == Empty
    {
      tasks, runs, submissions := map[], map[], map[];
      nextTask, nextRun, nextSubmission := 1, 1, 1;
    }

    method CreateReviewTask(min: RawNumber, max: RawNumber, distinct: Option<bool>) returns (id: Id)
      modifies `tasks, `nextTask
      ensures id == old(nextTask) && View() == Create(old(View()), NormalizePolicy(min, max, distinct))
    {
      id := nextTask;
      tasks, nextTask := tasks[id := Task(NormalizePolicy(min, max, distinct), Open, None)], nextTask + 1;
    }

    method ClaimReviewTaskById(t: Id, worker: Text, agent: Option<Text>, now: int) returns (result: ClaimResult)
      modifies `runs, `nextRun
      ensures (View(), result) == Claim(old(View()), t, worker, agent, now)
    {
      if t !in tasks || !tasks[t].status.Open? { return Refused; }
      var policy := tasks[t].policy;
      var completed := |SubmissionsOf(View(), t)|;
      if completed >= policy.maxSubmissions { return Refused; }
      var running := |RunningRuns(View(), t)|;
      if completed + running >= policy.maxSubmissions { return Refused; }
      if Named(agent) && policy.requireDistinctAgents {
        var prior := HasSubmitted(View(), t, agent);
        var busy := IsRunning(View(), t, agent);
        if prior || busy { return Refused; }
      }
      if IdentityTaken(View(), t, worker, agent) { return RunningIdentityTaken; }
      result := Claimed(nextRun);
      runs, nextRun := runs[nextRun := Run(t, worker, agent, Running, now, Some(now), None)], nextRun + 1;
    }

    method FailReviewTaskRun(run: Id, reason: Text)
      modifies `runs
      ensures View() == Fail(old(View()), run, reason)
    {
      if run in runs { runs := runs[run := runs[run].(status := RunFailed, failure := Some(reason))]; }
    }

    method HeartbeatReviewTaskRun(t: Id, run: Id, worker: Option<Text>, agent: Option<Text>, now: int) returns (updated: bool)
      modifies `runs
      ensures updated <==> Alive(old(View()), t, run, worker, agent)
      ensures View() == Heartbeat(old(View()), t, run, worker, agent, now)
    {
      updated := Alive(View(), t, run, worker, agent);
      if updated { runs := runs[run := runs[run].(heartbeat := Some(now))]; }
    }

    method ExpireStaleReviewTaskRuns(staleBefore: int, requested: Option<int>, locked: set<Id>) returns (picked: seq<Id>)
      modifies `runs
      ensures OldestFirst(Beats(old(View())), StaleRuns(old(View()), staleBefore, locked), picked,
                          Max(1, Min(if requested.Some? then requested.value else 50, 200)))
      ensures View() == Expire(old(View()), picked)
    {
      var s := View();
      var limit := Max(1, Min(if requested.Some? then requested.value else 50, 200));
      picked := SelectOldest(Beats(s), StaleRuns(s, staleBefore, locked), limit);
      hide StaleRuns, Beats, OldestFirst;
      for i := 0 to |picked|
        invariant Expire(View(), picked[i..]) == Expire(old(View()), picked)
      {
        assert picked[i..][1..] == picked[i + 1..];
        FailReviewTaskRun(picked[i], "heartbeat_timeout");
      }
      assert picked[|picked|..] == [];
    }

    method RecordReviewSubmission(t: Id, run: Option<Id>, agent: Option<Text>, result: Option<Text>)
        returns (error: Option<SubmitError>)
      modifies `tasks, `runs, `submissions, `nextSubmission
      ensures error == SubmitCheck(old(View()), t, run, agent)
      ensures View() == Submit(old(View()), t, run, agent, result)
    {
      if t !in tasks { return Some(TaskNotFound); }
      var task := tasks[t];
      if run.Some? {
        if run.value !in runs || runs[run.value].task != t { return Some(RunNotFound); }
        var row := runs[run.value];
        if !row.status.Running? { return Some(RunNotRunning); }
        if Named(agent) && Named(row.agent) && agent != row.agent { return Some(AgentMismatch); }
      }
      if Named(agent) && task.policy.requireDistinctAgents && HasSubmitted(View(), t, agent) {
        return Some(AgentAlreadySubmitted);
      }
      if run.Some? && exists b :: b in submissions && submissions[b].run == run { return Some(RunAlreadySubmitted); }
      submissions, nextSubmission := submissions[nextSubmission := Submission(t, run, agent, result)], nextSubmission + 1;
      if run.Some? { runs := runs[run.value := runs[run.value].(status := RunCompleted)]; }
      var completed := |SubmissionsOf(View(), t)|;
      if completed >= task.policy.minSubmissions {
        tasks := tasks[t := task.(result := Coalesce(result, task.result), status := Completed)];
      } else {
        tasks := tasks[t := task.(result := Coalesce(result, task.result))];
      }
      error := None;
    }
  }
}
