/**
  The review protocol over whole runs of it (src/review/store.ts): when a claim is granted and a
  submission accepted, which runs an expiry may take, told by the claims and heartbeats alone, and
  what a run and a task end as, told by the steps that were made.
*/
module ReviewTraces {
  import opened Common
  import opened Queries
  import opened Review

  // ----- when a claim is granted -----

  /** A running run of the task by that worker for the same agent, none and "" being the same. */
  ghost predicate SameIdentityRuns(s: State, t: Id, worker: Text, agent: Option<Text>) {
    exists r :: r in s.runs && s.runs[r].task == t && s.runs[r].status.Running? && s.runs[r].worker == worker
      && (s.runs[r].agent == agent || (!Named(s.runs[r].agent) && !Named(agent)))
  }

  /** A named agent that already submits or works on a task that wants different agents. */
  ghost predicate AgentUsed(s: State, t: Id, agent: Option<Text>)
    requires t in s.tasks
  {
    && s.tasks[t].policy.requireDistinctAgents && agent.Some? && agent.value != ""
    && ((exists b :: b in s.submissions && s.submissions[b].task == t && s.submissions[b].agent == agent)
        || (exists r :: r in s.runs && s.runs[r].task == t && s.runs[r].status.Running? && s.runs[r].agent == agent))
  }

  function FreePlaces(s: State, t: Id): int
    requires t in s.tasks
  {
    s.tasks[t].policy.maxSubmissions - |SubmissionsOf(s, t)| - |RunningRuns(s, t)|
  }

  /**
    Exactly when a claim is granted: the task is open, it has a free place, a task that wants
    different agents has not seen this one, and the same identity is not running on it. The run that
    starts is the claimant's, and nothing else changes; a refusal changes nothing.
  */
  lemma ClaimGrantedIff(s: State, t: Id, worker: Text, agent: Option<Text>, now: int)
    requires Good(s)
    ensures var (u, r) := Claim(s, t, worker, agent, now);
      && (r.Claimed? <==>
            t in s.tasks && s.tasks[t].status.Open? && FreePlaces(s, t) > 0
            && !AgentUsed(s, t, agent) && !SameIdentityRuns(s, t, worker, agent))
      && (r.RunningIdentityTaken? ==> SameIdentityRuns(s, t, worker, agent))
      && (!r.Claimed? ==> u == s)
      && (r.Claimed? ==>
            && r.run !in s.runs && r.run in u.runs && u == s.(runs := u.runs, nextRun := u.nextRun)
            && (forall q :: q in u.runs <==> q in s.runs || q == r.run) && (forall q :: q in s.runs ==> u.runs[q] == s.runs[q])
            && var run := u.runs[r.run]; run.task == t && run.worker == worker && run.agent == agent && run.status.Running?)
  {
    hide SubmissionsOf, RunningRuns, Quorum, OneEach, RunsSpent;
    if t in s.tasks { IdentityIs(s, t, worker, agent); }
    assert Keyed(s);
  }

  lemma IdentityIs(s: State, t: Id, worker: Text, agent: Option<Text>)
    ensures IdentityTaken(s, t, worker, agent) <==> SameIdentityRuns(s, t, worker, agent)
  {
    forall r | r in s.runs ensures OrEmpty(s.runs[r].agent) == OrEmpty(agent) <==> s.runs[r].agent == agent || (!Named(s.runs[r].agent) && !Named(agent)) {}
  }

  /** The agents claim one after the other without submitting, and every one is granted. */
  ghost predicate AllGranted(s: State, t: Id, worker: Text, agents: seq<Text>, now: int)
    decreases agents
  {
    agents == [] ||
    (var (u, r) := Claim(s, t, worker, Some(agents[0]), now);
     r.Claimed? && AllGranted(u, t, worker, agents[1..], now))
  }

  /** Different agents, new to the task. */
  ghost predicate NewAgents(s: State, t: Id, agents: seq<Text>) {
    && (forall i, j :: 0 <= i < j < |agents| ==> agents[i] != agents[j])
    && forall i :: 0 <= i < |agents| ==> NewAgent(s, t, agents[i])
  }

  ghost predicate NewAgent(s: State, t: Id, a: Text) {
    && a != ""
    && (forall b :: b in s.submissions && s.submissions[b].task == t ==> s.submissions[b].agent != Some(a))
    && (forall r :: r in s.runs && s.runs[r].task == t && s.runs[r].status.Running? ==> s.runs[r].agent != Some(a))
  }

  /** Free places are filled: new agents claiming one after the other are all granted exactly when there are places for all. */
  lemma {:induction false} PlacesFill(s: State, t: Id, worker: Text, agents: seq<Text>, now: int)
    requires Good(s) && Capacity(s) && t in s.tasks && s.tasks[t].status.Open? && NewAgents(s, t, agents)
    ensures AllGranted(s, t, worker, agents, now) <==> |agents| <= FreePlaces(s, t)
    decreases agents
  {
    hide SubmissionsOf, RunningRuns, Good, Capacity, Claim;
    assert FreePlaces(s, t) >= 0 by { PlacesLeft(s, t); }
    if agents != [] {
      var a := agents[0];
      ClaimGrantedIff(s, t, worker, Some(a), now);
      assert NewAgent(s, t, a);
      NewAgentFits(s, t, worker, a);
      var (u, r) := Claim(s, t, worker, Some(a), now);
      if r.Claimed? {
        GoodIsKeyed(s);
        ClaimKeeps(s, t, worker, Some(a), now);
        OnePlaceFewer(s, t, worker, Some(a), now);
        assert NewAgents(u, t, agents[1..]) by { StillNew(s, t, worker, agents, now); }
        PlacesFill(u, t, worker, agents[1..], now);
      }
    }
  }

  lemma PlacesLeft(s: State, t: Id)
    requires Capacity(s) && t in s.tasks
    ensures FreePlaces(s, t) >= 0
  {
    hide SubmissionsOf, RunningRuns;
    assert WithinCapacity(s, t);
  }

  lemma NewAgentFits(s: State, t: Id, worker: Text, a: Text)
    requires t in s.tasks && NewAgent(s, t, a)
    ensures !AgentUsed(s, t, Some(a)) && !SameIdentityRuns(s, t, worker, Some(a))
  {
  }

  lemma OnePlaceFewer(s: State, t: Id, worker: Text, agent: Option<Text>, now: int)
    requires Good(s) && t in s.tasks && Claim(s, t, worker, agent, now).1.Claimed?
    ensures var u := Claim(s, t, worker, agent, now).0;
      Keyed(s) && u.tasks == s.tasks && u.submissions == s.submissions && FreePlaces(u, t) == FreePlaces(s, t) - 1
  {
    hide SubmissionsOf, RunningRuns, Claim;
    GoodIsKeyed(s);
    ClaimEffect(s, t, worker, agent, now);
    var u := Claim(s, t, worker, agent, now).0;
    ClaimCounts(s, u, u.runs[s.nextRun]);
  }

  lemma StillNew(s: State, t: Id, worker: Text, agents: seq<Text>, now: int)
    requires Good(s) && agents != [] && NewAgents(s, t, agents) && Claim(s, t, worker, Some(agents[0]), now).1.Claimed?
    ensures NewAgents(Claim(s, t, worker, Some(agents[0]), now).0, t, agents[1..])
  {
    hide SubmissionsOf, RunningRuns;
    ClaimGrantedIff(s, t, worker, Some(agents[0]), now);
    var u := Claim(s, t, worker, Some(agents[0]), now).0;
    forall i | 0 <= i < |agents[1..]| ensures NewAgent(u, t, agents[1..][i]) { assert NewAgent(s, t, agents[i + 1]) && agents[0] != agents[i + 1]; }
  }

  // ----- when a submission is accepted -----

  /** A run that can carry the agent's submission for the task. */
  predicate Carries(s: State, t: Id, run: Id, agent: Option<Text>) {
    && run in s.runs && s.runs[run].task == t && s.runs[run].status.Running?
    && !(Named(agent) && Named(s.runs[run].agent) && agent != s.runs[run].agent)
  }

  /**
    Exactly when a submission is accepted: the task exists, whatever its status, the run, if one is
    named, is a running one of the task and of no other agent, and on a task that wants different
    agents the agent, if named, has not submitted.
  */
  lemma SubmitAcceptedIff(s: State, t: Id, run: Option<Id>, agent: Option<Text>)
    requires Good(s)
    ensures SubmitCheck(s, t, run, agent).None? <==>
      && t in s.tasks && (run.Some? ==> Carries(s, t, run.value, agent))
      && !(s.tasks[t].policy.requireDistinctAgents && agent.Some? && agent.value != ""
           && exists b :: b in s.submissions && s.submissions[b].task == t && s.submissions[b].agent == agent)
  {
    RunIndexNeverFires(s, t, run, agent);
  }

  // ----- traces from the back -----

  lemma {:induction false} TraceSnoc(s: State, steps: seq<Step>)
    requires steps != []
    ensures Trace(s, steps) == Apply(Trace(s, steps[..|steps| - 1]), steps[|steps| - 1])
    decreases steps
  {
    hide Apply;
    var init := steps[..|steps| - 1];
    if |steps| == 1 {
      assert steps[1..] == [] && init == [];
    } else {
      TraceSnoc(Apply(s, steps[0]), steps[1..]);
      assert steps[1..][..|steps| - 2] == init[1..];
    }
  }

  lemma ReachedGood(steps: seq<Step>)
    ensures Good(Trace(Empty, steps))
  {
    hide Good, Trace;
    EmptyIsGood();
    TraceKeepsGood(Empty, steps);
  }

  lemma NothingRun()
    ensures Trace(Empty, []) == Empty
  {
  }

  // ----- signs of life -----

  /** The step is the claim that started the run, or a heartbeat that goes through for it. */
  predicate SignOfLife(before: State, step: Step, run: Id) {
    || (step.DoClaim? && Claim(before, step.task, step.worker, step.agent, step.now).1 == Claimed(run))
    || (step.DoHeartbeat? && step.run == run && HoldsRun(before, step.task, run, step.byWorker, step.byAgent))
  }

  /** The run is running on the open task, and the names given are its own. */
  predicate HoldsRun(s: State, t: Id, run: Id, worker: Option<Text>, agent: Option<Text>) {
    && t in s.tasks && s.tasks[t].status.Open?
    && run in s.runs && s.runs[run].task == t && s.runs[run].status.Running?
    && (worker == None || worker == Some(s.runs[run].worker)) && (agent == None || agent == s.runs[run].agent)
  }

  ghost predicate SignAt(steps: seq<Step>, i: nat, run: Id)
    requires i < |steps|
  {
    SignOfLife(Trace(Empty, steps[..i]), steps[i], run)
  }

  function TimeOf(step: Step): Option<int> {
    match step
    case DoClaim(_, _, _, now) => Some(now)
    case DoHeartbeat(_, _, _, _, now) => Some(now)
    case _ => None
  }

  /** One clock that never goes back. */
  ghost predicate Clocked(steps: seq<Step>) {
    forall i, j :: 0 <= i < j < |steps| && TimeOf(steps[i]).Some? && TimeOf(steps[j]).Some? ==> TimeOf(steps[i]).value <= TimeOf(steps[j]).value
  }

  /** No sign of life of the run at `cutoff` or later. */
  ghost predicate Silent(steps: seq<Step>, run: Id, cutoff: int) {
    forall i :: 0 <= i < |steps| && SignAt(steps, i, run) ==> TimeOf(steps[i]).Some? && TimeOf(steps[i]).value < cutoff
  }

  ghost function LastSign(steps: seq<Step>, run: Id): Option<int> {
    if steps == [] then None
    else if SignAt(steps, |steps| - 1, run) then TimeOf(steps[|steps| - 1])
    else LastSign(steps[..|steps| - 1], run)
  }

  lemma BeatKept(s: State, step: Step, run: Id)
    requires Keyed(s)
    ensures var u := Apply(s, step);
      && (run in s.runs ==> run in u.runs)
      && (run in u.runs ==>
            if SignOfLife(s, step, run) then Some(Beats(u)[run]) == TimeOf(step)
            else run in s.runs && Beats(u)[run] == Beats(s)[run])
  {
    hide SubmissionsOf, RunningRuns, Expire, Claim, NormalizePolicy, SubmitCheck;
    if step.DoExpire? { ExpireOnly(s, step.picked); }
    if step.DoClaim? { ClaimEffect(s, step.task, step.worker, step.agent, step.now); }
    if step.DoSubmit? { SubmitBeats(s, step.task, step.runOf, step.agent, step.result, run); }
  }

  lemma SubmitBeats(s: State, t: Id, run: Option<Id>, agent: Option<Text>, result: Option<Text>, r: Id)
    ensures var u := Submit(s, t, run, agent, result); u.runs.Keys == s.runs.Keys && (r in s.runs ==> Beats(u)[r] == Beats(s)[r])
  {
    hide SubmissionsOf;
  }

  lemma {:induction false} BeatIsLastSign(steps: seq<Step>, run: Id)
    ensures run in Trace(Empty, steps).runs ==> LastSign(steps, run) == Some(Beats(Trace(Empty, steps))[run])
  {
    hide Good, Apply, SignOfLife, Trace;
    if steps == [] {
      NothingRun();
    } else {
      var init, step := steps[..|steps| - 1], steps[|steps| - 1];
      TraceSnoc(Empty, steps);
      BeatIsLastSign(init, run);
      ReachedGood(init);
      GoodIsKeyed(Trace(Empty, init));
      BeatKept(Trace(Empty, init), step, run);
    }
  }

  lemma {:induction false} SilentIffLastSign(steps: seq<Step>, run: Id, cutoff: int)
    requires Clocked(steps) && LastSign(steps, run).Some?
    ensures Silent(steps, run, cutoff) <==> LastSign(steps, run).value < cutoff
  {
    hide SignOfLife, Trace;
    var last := |steps| - 1;
    var init := steps[..last];
    forall i | 0 <= i < last ensures SignAt(steps, i, run) <==> SignAt(init, i, run) { assert steps[..i] == init[..i]; }
    if SignAt(steps, last, run) {
      forall i | 0 <= i < |steps| && SignAt(steps, i, run) ensures TimeOf(steps[i]).Some? && TimeOf(steps[i]).value <= TimeOf(steps[last]).value {
        SignsAreTimed(Trace(Empty, steps[..i]), steps[i], run);
      }
    } else {
      SilentIffLastSign(init, run, cutoff);
    }
  }

  lemma SignsAreTimed(s: State, step: Step, run: Id)
    requires SignOfLife(s, step, run)
    ensures TimeOf(step).Some?
  {
  }

  /**
    Exactly when a review run is stale: over every sequence of steps on one clock, an expiry with
    cutoff `cutoff` may take a run if and only if it is running on an open task, its row is not
    locked, and neither its claim nor any heartbeat that went through for it is at the cutoff or later.
  */
  lemma StaleIffSilent(steps: seq<Step>, run: Id, cutoff: int, locked: set<Id>)
    requires Clocked(steps)
    ensures var s := Trace(Empty, steps);
      run in StaleRuns(s, cutoff, locked) <==>
        && run in s.runs && s.runs[run].status.Running? && s.runs[run].task in s.tasks && s.tasks[s.runs[run].task].status.Open?
        && run !in locked && Silent(steps, run, cutoff)
  {
    hide Trace, Silent, Clocked, LastSign;
    BeatIsLastSign(steps, run);
    if run in Trace(Empty, steps).runs { SilentIffLastSign(steps, run, cutoff); }
  }

  // ----- how a run ends -----

  predicate EndsRun(before: State, step: Step, run: Id) {
    run in before.runs &&
    match step
    case DoFail(r, _) => r == run
    case DoExpire(picked) => run in picked
    case DoSubmit(t, r, agent, _) => r == Some(run) && SubmitCheck(before, t, r, agent).None?
    case _ => false
  }

  ghost function LastEnd(steps: seq<Step>, run: Id): Option<Step> {
    if steps == [] then None
    else if EndsRun(Trace(Empty, steps[..|steps| - 1]), steps[|steps| - 1], run) then Some(steps[|steps| - 1])
    else LastEnd(steps[..|steps| - 1], run)
  }

  predicate RunEndedAs(r: Run, end: Option<Step>) {
    match end
    case Some(DoFail(_, reason)) => r.status.RunFailed? && r.failure == Some(reason)
    case Some(DoExpire(_)) => r.status.RunFailed? && r.failure == Some("heartbeat_timeout")
    case Some(DoSubmit(_, _, _, _)) => r.status.RunCompleted?
    case _ => r.status.Running?
  }

  lemma {:induction false} ExpiredRun(s: State, picked: seq<Id>, run: Id)
    requires run in s.runs
    ensures var u := Expire(s, picked);
      run in u.runs && (if run in picked then u.runs[run].status.RunFailed? && u.runs[run].failure == Some("heartbeat_timeout")
                        else u.runs[run] == s.runs[run])
    decreases picked
  {
    if picked != [] {
      var v := Fail(s, picked[0], "heartbeat_timeout");
      ExpiredRun(v, picked[1..], run);
      assert run in picked <==> run == picked[0] || run in picked[1..];
    }
  }

  lemma RunEndStep(s: State, step: Step, run: Id, end: Option<Step>)
    requires Keyed(s)
    requires if run in s.runs then RunEndedAs(s.runs[run], end) else end.None?
    ensures var u := Apply(s, step);
      var next := if EndsRun(s, step, run) then Some(step) else end;
      if run in u.runs then RunEndedAs(u.runs[run], next) else next.None?
  {
    hide SubmissionsOf, RunningRuns, Expire, Claim, NormalizePolicy;
    if step.DoExpire? {
      ExpireOnly(s, step.picked);
      if run in s.runs { ExpiredRun(s, step.picked, run); }
    }
    if step.DoClaim? { ClaimEffect(s, step.task, step.worker, step.agent, step.now); }
  }

  /** Over every sequence of steps a run is running, completed, failed or timed out as the last step that ended it says. */
  lemma {:induction false} RunEndsAs(steps: seq<Step>, run: Id)
    ensures var u := Trace(Empty, steps);
      if run in u.runs then RunEndedAs(u.runs[run], LastEnd(steps, run)) else LastEnd(steps, run).None?
  {
    hide Good, Apply, EndsRun, RunEndedAs, Trace;
    if steps == [] {
      NothingRun();
    } else {
      var init, step := steps[..|steps| - 1], steps[|steps| - 1];
      TraceSnoc(Empty, steps);
      RunEndsAs(init, run);
      ReachedGood(init);
      GoodIsKeyed(Trace(Empty, init));
      RunEndStep(Trace(Empty, init), step, run, LastEnd(init, run));
    }
  }

  // ----- what is submitted -----

  /** The submissions that were accepted, in order. */
  ghost function Accepted(steps: seq<Step>): seq<Submission> {
    if steps == [] then []
    else
      var prior, step := Accepted(steps[..|steps| - 1]), steps[|steps| - 1];
      if step.DoSubmit? && SubmitCheck(Trace(Empty, steps[..|steps| - 1]), step.task, step.runOf, step.agent).None?
      then prior + [Submission(step.task, step.runOf, step.agent, step.result)] else prior
  }

  /** The last result given for the task. */
  function LastResult(subs: seq<Submission>, t: Id): Option<Text> {
    if subs == [] then None
    else if subs[|subs| - 1].task == t && subs[|subs| - 1].result.Some? then subs[|subs| - 1].result
    else LastResult(subs[..|subs| - 1], t)
  }

  /** The submissions are numbered from 1, and every task shows its last result. */
  ghost predicate Records(s: State, subs: seq<Submission>) {
    && s.nextSubmission == |subs| + 1
    && (forall b :: b in s.submissions <==> 1 <= b <= |subs|)
    && (forall b :: b in s.submissions ==> s.submissions[b] == subs[b - 1])
    && (forall t :: t in s.tasks ==> s.tasks[t].result == LastResult(subs, t))
    && (forall i :: 0 <= i < |subs| ==> subs[i].task in s.tasks)
  }

  lemma SubmitRecords(s: State, subs: seq<Submission>, t: Id, run: Option<Id>, agent: Option<Text>, result: Option<Text>)
    requires Records(s, subs)
    ensures Records(Submit(s, t, run, agent, result),
                    if SubmitCheck(s, t, run, agent).None? then subs + [Submission(t, run, agent, result)] else subs)
  {
    hide SubmissionsOf;
    var u := Submit(s, t, run, agent, result);
    if SubmitCheck(s, t, run, agent).None? {
      var next := subs + [Submission(t, run, agent, result)];
      assert next[..|next| - 1] == subs;
      forall k | k in u.tasks ensures u.tasks[k].result == LastResult(next, k) { assert s.tasks[k].result == LastResult(subs, k); }
    }
  }

  lemma {:induction false} NoResultYet(subs: seq<Submission>, t: Id)
    requires forall i :: 0 <= i < |subs| ==> subs[i].task != t
    ensures LastResult(subs, t) == None
  {
    if subs != [] { NoResultYet(subs[..|subs| - 1], t); }
  }

  lemma RecordStep(s: State, subs: seq<Submission>, step: Step)
    requires Keyed(s) && Records(s, subs)
    ensures Records(Apply(s, step),
                    if step.DoSubmit? && SubmitCheck(s, step.task, step.runOf, step.agent).None?
                    then subs + [Submission(step.task, step.runOf, step.agent, step.result)] else subs)
  {
    hide SubmissionsOf, RunningRuns, Expire, Claim, NormalizePolicy, SubmitCheck, Submit;
    match step {
      case DoSubmit(t, run, agent, result) => SubmitRecords(s, subs, t, run, agent, result);
      case DoExpire(picked) => ExpireStops(s, picked); SameTasks(s, Apply(s, step), subs);
      case DoClaim(t, worker, agent, now) => ClaimEffect(s, t, worker, agent, now); SameTasks(s, Apply(s, step), subs);
      case DoCreate(_, _, _) => NewTask(s, Apply(s, step), subs);
      case _ => SameTasks(s, Apply(s, step), subs);
    }
  }

  lemma SameTasks(s: State, u: State, subs: seq<Submission>)
    requires Records(s, subs) && u.tasks == s.tasks && u.submissions == s.submissions && u.nextSubmission == s.nextSubmission
    ensures Records(u, subs)
  {
  }

  lemma NewTask(s: State, u: State, subs: seq<Submission>)
    requires Keyed(s) && Records(s, subs) && u.submissions == s.submissions && u.nextSubmission == s.nextSubmission
    requires u.tasks.Keys == s.tasks.Keys + {s.nextTask} && u.tasks[s.nextTask].result == None
    requires forall t :: t in s.tasks ==> u.tasks[t] == s.tasks[t]
    ensures Records(u, subs)
  {
    forall i | 0 <= i < |subs| ensures subs[i].task != s.nextTask { assert subs[i].task in s.tasks; }
    NoResultYet(subs, s.nextTask);
  }

  /**
    Over every sequence of steps the table of submissions is the list of the accepted ones, with what
    each of them gave, and a task shows the last result that one of its submissions gave.
  */
  lemma {:induction false} SubmissionsAre(steps: seq<Step>)
    ensures Records(Trace(Empty, steps), Accepted(steps))
  {
    hide Good, Apply, SubmitCheck, Records, Trace;
    if steps == [] {
      NothingRun();
      NothingRecorded();
    } else {
      var init, step := steps[..|steps| - 1], steps[|steps| - 1];
      TraceSnoc(Empty, steps);
      SubmissionsAre(init);
      ReachedGood(init);
      GoodIsKeyed(Trace(Empty, init));
      RecordStep(Trace(Empty, init), Accepted(init), step);
    }
  }

  lemma NothingRecorded()
    ensures Records(Empty, [])
  {
  }

  // ----- submissions and their runs -----

  /** A submission's run is one of its task, and of no other agent. */
  ghost predicate RunsMatch(s: State) {
    forall b :: b in s.submissions ==> RunMatches(s, s.submissions[b])
  }

  predicate RunMatches(s: State, x: Submission) {
    x.run.Some? ==>
      && x.run.value in s.runs && s.runs[x.run.value].task == x.task && !s.runs[x.run.value].status.Running?
      && (Named(x.agent) && Named(s.runs[x.run.value].agent) ==> x.agent == s.runs[x.run.value].agent)
  }

  lemma MatchStep(s: State, step: Step)
    requires Good(s) && RunsMatch(s)
    ensures RunsMatch(Apply(s, step))
  {
    hide SubmissionsOf, RunningRuns, Expire, Claim, NormalizePolicy, Quorum, OneEach;
    GoodIsKeyed(s);
    var u := Apply(s, step);
    if step.DoExpire? {
      ExpireStops(s, step.picked);
      forall r | r in s.runs ensures u.runs[r].agent == s.runs[r].agent { ExpireKeepsAgent(s, step.picked, r); }
    }
    if step.DoClaim? { ClaimEffect(s, step.task, step.worker, step.agent, step.now); }
    forall b | b in u.submissions ensures RunMatches(u, u.submissions[b]) {
      if b in s.submissions { assert RunMatches(s, s.submissions[b]); }
    }
  }

  lemma {:induction false} ExpireKeepsAgent(s: State, picked: seq<Id>, r: Id)
    requires r in s.runs
    ensures r in Expire(s, picked).runs && Expire(s, picked).runs[r].agent == s.runs[r].agent
    decreases picked
  {
    if picked != [] { ExpireKeepsAgent(Fail(s, picked[0], "heartbeat_timeout"), picked[1..], r); }
  }

  /** Over every sequence of steps a submission came through a run of its own task and of its own agent. */
  lemma {:induction false} SubmissionsMatchRuns(steps: seq<Step>)
    ensures RunsMatch(Trace(Empty, steps))
  {
    hide Good, Apply, RunsMatch, Trace;
    if steps == [] {
      NothingRun();
      NothingMatched();
    } else {
      TraceSnoc(Empty, steps);
      SubmissionsMatchRuns(steps[..|steps| - 1]);
      ReachedGood(steps[..|steps| - 1]);
      MatchStep(Trace(Empty, steps[..|steps| - 1]), steps[|steps| - 1]);
    }
  }

  lemma NothingMatched()
    ensures RunsMatch(Empty)
  {
  }
}
