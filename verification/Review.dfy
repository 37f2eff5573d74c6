/**
  The review consensus protocol (src/review/store.ts): a task collects submissions from reviewers
  who claim runs of it. Capacity bounds submissions plus running runs, quorum completes the task,
  and distinct-agent tasks take one submission per named agent.
*/
module Review {
  import opened Common
  import opened Queries

  type Id = nat
  type Text = string

  // ----- policies -----

  /** A JSON number that may be missing or not finite. */
  datatype RawNumber = NotFinite | Finite(value: real)

  datatype Policy = Policy(maxSubmissions: int, minSubmissions: int, requireDistinctAgents: bool)

  function ClampInteger(input: RawNumber, minimum: int, maximum: int, fallback: int): int {
    if input.NotFinite? then fallback else Max(minimum, Min(maximum, input.value.Floor))
  }

  /** `normalizeConsensusPolicy`. */
  function NormalizePolicy(min: RawNumber, max: RawNumber, distinct: Option<bool>): Policy {
    var minSubmissions := ClampInteger(min, 1, 10, 1);
    Policy(ClampInteger(max, minSubmissions, 10, Max(1, minSubmissions)), minSubmissions,
           if distinct.Some? then distinct.value else false)
  }

  predicate Normal(p: Policy) {
    1 <= p.minSubmissions <= p.maxSubmissions <= 10
  }

  /** Any input gives a policy in range, and reading a stored policy back gives the same policy. */
  lemma PolicyNormalized(min: RawNumber, max: RawNumber, distinct: Option<bool>)
    ensures var p := NormalizePolicy(min, max, distinct);
      Normal(p) &&
      p == NormalizePolicy(Finite(p.minSubmissions as real), Finite(p.maxSubmissions as real), Some(p.requireDistinctAgents))
  {
    var p := NormalizePolicy(min, max, distinct);
    assert (p.minSubmissions as real).Floor == p.minSubmissions && (p.maxSubmissions as real).Floor == p.maxSubmissions;
  }

  /** The nearest number in a range, the fallback for no number. */
  predicate Nearest(r: int, wanted: RawNumber, lo: int, hi: int, fallback: int) {
    match wanted
    case NotFinite => r == fallback
    case Finite(v) =>
      && lo <= r <= hi
      && (lo <= v.Floor <= hi ==> r == v.Floor) && (v.Floor < lo ==> r == lo) && (v.Floor > hi ==> r == hi)
  }

  /** A valid request is taken as it is; a missing or an invalid number becomes the nearest valid one. */
  lemma PolicyAsRequested(min: RawNumber, max: RawNumber, distinct: Option<bool>)
    ensures var p := NormalizePolicy(min, max, distinct);
      && Nearest(p.minSubmissions, min, 1, 10, 1)
      && Nearest(p.maxSubmissions, max, p.minSubmissions, 10, p.minSubmissions)
      && p.requireDistinctAgents == (distinct == Some(true))
  {
  }

  // ----- tables -----

  datatype TaskStatus = Open | Completed
  datatype RunStatus = Running | RunCompleted | RunFailed

  datatype Task = Task(policy: Policy, status: TaskStatus, result: Option<Text>)
  datatype Run = Run(task: Id, worker: Text, agent: Option<Text>, status: RunStatus,
                     startedAt: int, heartbeat: Option<int>, failure: Option<Text>)
  datatype Submission = Submission(task: Id, run: Option<Id>, agent: Option<Text>, result: Option<Text>)

  datatype State = State(tasks: map<Id, Task>, runs: map<Id, Run>, submissions: map<Id, Submission>,
                         nextTask: Id, nextRun: Id, nextSubmission: Id)

  const Empty := State(map[], map[], map[], 1, 1, 1)

  function RunningRuns(s: State, t: Id): set<Id> {
    set r | r in s.runs && s.runs[r].task == t && s.runs[r].status.Running?
  }

  function SubmissionsOf(s: State, t: Id): set<Id> {
    set b | b in s.submissions && s.submissions[b].task == t
  }

  /** A JavaScript string that passes `if (agentId)`. */
  predicate Named(agent: Option<Text>) {
    agent.Some? && agent.value != ""
  }

  function OrEmpty(agent: Option<Text>): Text {
    if agent.Some? then agent.value else ""
  }

  // ----- operations -----

  function Create(s: State, p: Policy): State {
    s.(tasks := s.tasks[s.nextTask := Task(p, Open, None)], nextTask := s.nextTask + 1)
  }

  datatype ClaimResult = Claimed(run: Id) | Refused | RunningIdentityTaken

  predicate HasSubmitted(s: State, t: Id, agent: Option<Text>) {
    exists b :: b in s.submissions && s.submissions[b].task == t && s.submissions[b].agent == agent
  }

  predicate IsRunning(s: State, t: Id, agent: Option<Text>) {
    exists r :: r in s.runs && s.runs[r].task == t && s.runs[r].agent == agent && s.runs[r].status.Running?
  }

  /** The partial unique index on (task, COALESCE(agent, ''), worker) of running runs. */
  predicate IdentityTaken(s: State, t: Id, worker: Text, agent: Option<Text>) {
    exists r :: r in s.runs && s.runs[r].task == t && s.runs[r].status.Running?
                && OrEmpty(s.runs[r].agent) == OrEmpty(agent) && s.runs[r].worker == worker
  }

  function Claim(s: State, t: Id, worker: Text, agent: Option<Text>, now: int): (State, ClaimResult) {
    if t !in s.tasks || !s.tasks[t].status.Open? then (s, Refused)
    else
      var p := s.tasks[t].policy;
      if |SubmissionsOf(s, t)| >= p.maxSubmissions then (s, Refused)
      else if |SubmissionsOf(s, t)| + |RunningRuns(s, t)| >= p.maxSubmissions then (s, Refused)
      else if Named(agent) && p.requireDistinctAgents && (HasSubmitted(s, t, agent) || IsRunning(s, t, agent))
      then (s, Refused)
      else if IdentityTaken(s, t, worker, agent) then (s, RunningIdentityTaken)
      else
        (s.(runs := s.runs[s.nextRun := Run(t, worker, agent, Running, now, Some(now), None)], nextRun := s.nextRun + 1),
         Claimed(s.nextRun))
  }

  /** No status guard: any run, whatever became of it, ends up failed. */
  function Fail(s: State, run: Id, reason: Text): State {
    if run in s.runs
    then s.(runs := s.runs[run := s.runs[run].(status := RunFailed, failure := Some(reason))]) else s
  }

  predicate Alive(s: State, t: Id, run: Id, worker: Option<Text>, agent: Option<Text>) {
    && run in s.runs && s.runs[run].task == t && s.runs[run].status.Running?
    && t in s.tasks && s.tasks[t].status.Open?
    && (agent.Some? ==> s.runs[run].agent == agent)
    && (worker.Some? ==> worker == Some(s.runs[run].worker))
  }

  function Heartbeat(s: State, t: Id, run: Id, worker: Option<Text>, agent: Option<Text>, now: int): State {
    if Alive(s, t, run, worker, agent) then s.(runs := s.runs[run := s.runs[run].(heartbeat := Some(now))]) else s
  }

  function Beats(s: State): map<Id, int> {
    map r | r in s.runs :: if s.runs[r].heartbeat.Some? then s.runs[r].heartbeat.value else s.runs[r].startedAt
  }

  /** Running runs of open tasks without a recent beat, outside the rows another transaction holds. */
  function StaleRuns(s: State, staleBefore: int, locked: set<Id>): set<Id> {
    set r | r in s.runs && s.runs[r].status.Running? && s.runs[r].task in s.tasks
            && s.tasks[s.runs[r].task].status.Open? && Beats(s)[r] < staleBefore && r !in locked
  }

  function Expire(s: State, picked: seq<Id>): State
    decreases picked
  {
    if picked == [] then s else Expire(Fail(s, picked[0], "heartbeat_timeout"), picked[1..])
  }

  datatype SubmitError =
    | TaskNotFound | RunNotFound | RunNotRunning | AgentMismatch | AgentAlreadySubmitted | RunAlreadySubmitted

  /** The checks of `recordReviewSubmission`, in order; there is none on the task's status. */
  function SubmitCheck(s: State, t: Id, run: Option<Id>, agent: Option<Text>): Option<SubmitError> {
    if t !in s.tasks then Some(TaskNotFound)
    else if run.Some? && (run.value !in s.runs || s.runs[run.value].task != t) then Some(RunNotFound)
    else if run.Some? && !s.runs[run.value].status.Running? then Some(RunNotRunning)
    else if run.Some? && Named(agent) && Named(s.runs[run.value].agent) && agent != s.runs[run.value].agent
    then Some(AgentMismatch)
    else if Named(agent) && s.tasks[t].policy.requireDistinctAgents && HasSubmitted(s, t, agent)
    then Some(AgentAlreadySubmitted)
    else if run.Some? && exists b :: b in s.submissions && s.submissions[b].run == run
    then Some(RunAlreadySubmitted)
    else None
  }

  /** Inserts the submission, completes its run, and completes the task at quorum. */
  function Submit(s: State, t: Id, run: Option<Id>, agent: Option<Text>, result: Option<Text>): State {
    if SubmitCheck(s, t, run, agent).Some? then s
    else
      var subs := s.submissions[s.nextSubmission := Submission(t, run, agent, result)];
      var runs := if run.Some? then s.runs[run.value := s.runs[run.value].(status := RunCompleted)] else s.runs;
      var u := s.(submissions := subs, runs := runs, nextSubmission := s.nextSubmission + 1);
      var task := s.tasks[t].(result := Coalesce(result, s.tasks[t].result));
      u.(tasks := s.tasks[t := if |SubmissionsOf(u, t)| >= task.policy.minSubmissions then task.(status := Completed) else task])
  }

  // ----- invariants -----

  ghost predicate Keyed(s: State) {
    && (forall t :: t in s.tasks ==> t < s.nextTask && Normal(s.tasks[t].policy))
    && (forall r :: r in s.runs ==> r < s.nextRun && s.runs[r].task in s.tasks)
    && (forall b :: b in s.submissions ==> b < s.nextSubmission && s.submissions[b].task in s.tasks)
  }

  /** A task is completed exactly when it has reached its quorum. */
  ghost predicate Quorum(s: State) {
    forall t :: t in s.tasks ==> (s.tasks[t].status.Completed? <==> |SubmissionsOf(s, t)| >= s.tasks[t].policy.minSubmissions)
  }

  /** On a distinct-agent task a named agent submits once. */
  ghost predicate OneEach(s: State) {
    forall a, b :: a in s.submissions && b in s.submissions && a != b ==> Apart(s, s.submissions[a], s.submissions[b])
  }

  predicate Apart(s: State, x: Submission, y: Submission) {
    x.task == y.task && x.task in s.tasks && s.tasks[x.task].policy.requireDistinctAgents && Named(x.agent) ==> x.agent != y.agent
  }

  /** A run that carries a submission has stopped, so it never carries a second one. */
  ghost predicate RunsSpent(s: State) {
    forall b :: b in s.submissions && s.submissions[b].run.Some? ==>
      s.submissions[b].run.value in s.runs && !s.runs[s.submissions[b].run.value].status.Running?
  }

  ghost predicate Good(s: State) {
    Keyed(s) && Quorum(s) && OneEach(s) && RunsSpent(s)
  }

  predicate WithinCapacity(s: State, t: Id)
    requires t in s.tasks
  {
    |SubmissionsOf(s, t)| + |RunningRuns(s, t)| <= s.tasks[t].policy.maxSubmissions
  }

  ghost predicate Capacity(s: State) {
    forall t :: t in s.tasks ==> WithinCapacity(s, t)
  }

  // ----- steps -----

  datatype Step =
    | DoCreate(min: RawNumber, max: RawNumber, distinct: Option<bool>)
    | DoClaim(task: Id, worker: Text, agent: Option<Text>, now: int)
    | DoFail(run: Id, reason: Text)
    | DoHeartbeat(task: Id, run: Id, byWorker: Option<Text>, byAgent: Option<Text>, now: int)
    | DoExpire(picked: seq<Id>)
    | DoSubmit(task: Id, runOf: Option<Id>, agent: Option<Text>, result: Option<Text>)

  function Apply(s: State, step: Step): State {
    match step
    case DoCreate(min, max, distinct) => Create(s, NormalizePolicy(min, max, distinct))
    case DoClaim(t, worker, agent, now) => Claim(s, t, worker, agent, now).0
    case DoFail(run, reason) => Fail(s, run, reason)
    case DoHeartbeat(t, run, worker, agent, now) => Heartbeat(s, t, run, worker, agent, now)
    case DoExpire(picked) => Expire(s, picked)
    case DoSubmit(t, run, agent, result) => Submit(s, t, run, agent, result)
  }

  /** Runs only stop, and nothing else changes but a heartbeat or a reason. */
  ghost predicate RunsOnlyStop(s: State, u: State) {
    && u.tasks == s.tasks && u.submissions == s.submissions && u.runs.Keys == s.runs.Keys
    && u.nextTask == s.nextTask && u.nextRun == s.nextRun && u.nextSubmission == s.nextSubmission
    && forall r :: r in s.runs ==>
         u.runs[r].task == s.runs[r].task && (u.runs[r].status.Running? ==> s.runs[r].status.Running?)
  }

  lemma StoppingKeeps(s: State, u: State)
    requires RunsOnlyStop(s, u)
    ensures Good(s) ==> Good(u)
    ensures Capacity(s) ==> Capacity(u)
    ensures forall t :: SubmissionsOf(u, t) == SubmissionsOf(s, t) && RunningRuns(u, t) <= RunningRuns(s, t)
  {
    forall t ensures SubmissionsOf(u, t) == SubmissionsOf(s, t) && RunningRuns(u, t) <= RunningRuns(s, t)
      ensures |RunningRuns(u, t)| <= |RunningRuns(s, t)|
    {
      Subset(RunningRuns(u, t), RunningRuns(s, t));
    }
    if Capacity(s) {
      forall t | t in u.tasks ensures WithinCapacity(u, t) { assert WithinCapacity(s, t); }
    }
  }

  lemma Subset(a: set<Id>, b: set<Id>)
    ensures a <= b ==> |a| <= |b|
  {
    if a <= b { assert b == a + (b - a); }
  }

  lemma {:induction false} ExpireStops(s: State, picked: seq<Id>)
    ensures RunsOnlyStop(s, Expire(s, picked))
    ensures forall r :: r in s.runs && r in picked ==> !Expire(s, picked).runs[r].status.Running?
    decreases picked
  {
    if picked != [] { ExpireStops(Fail(s, picked[0], "heartbeat_timeout"), picked[1..]); }
  }

  /** Adding a task adds no run and no submission to any task. */
  lemma CreateCounts(s: State, p: Policy)
    requires Keyed(s)
    ensures var u := Create(s, p);
      forall t :: SubmissionsOf(u, t) == SubmissionsOf(s, t) && RunningRuns(u, t) == RunningRuns(s, t)
    ensures SubmissionsOf(s, s.nextTask) == {} && RunningRuns(s, s.nextTask) == {}
  {
  }

  lemma CreateKeeps(s: State, p: Policy)
    requires Keyed(s) && Normal(p)
    ensures Good(s) ==> Good(Create(s, p))
    ensures Capacity(s) ==> Capacity(Create(s, p))
  {
    hide SubmissionsOf, RunningRuns;
    var u := Create(s, p);
    CreateCounts(s, p);
    if Good(s) {
      forall a, b | a in u.submissions && b in u.submissions && a != b ensures Apart(u, u.submissions[a], u.submissions[b]) {
        assert Apart(s, s.submissions[a], s.submissions[b]);
      }
    }
    if Capacity(s) {
      forall t | t in u.tasks ensures WithinCapacity(u, t) { assert t in s.tasks ==> WithinCapacity(s, t); }
    }
  }

  /** A successful claim adds one running run to the task, which had a free place. */
  lemma ClaimEffect(s: State, t: Id, worker: Text, agent: Option<Text>, now: int)
    requires Keyed(s)
    ensures var (u, r) := Claim(s, t, worker, agent, now);
      && (!r.Claimed? ==> u == s)
      && (r.Claimed? ==>
            && r.run == s.nextRun && t in s.tasks && s.tasks[t].status.Open?
            && u == s.(runs := s.runs[s.nextRun := Run(t, worker, agent, Running, now, Some(now), None)], nextRun := s.nextRun + 1)
            && |SubmissionsOf(s, t)| + |RunningRuns(s, t)| < s.tasks[t].policy.maxSubmissions)
  {
    hide SubmissionsOf, RunningRuns;
  }

  lemma ClaimCounts(s: State, u: State, run: Run)
    requires Keyed(s) && run.status.Running? && u == s.(runs := s.runs[s.nextRun := run], nextRun := s.nextRun + 1)
    ensures forall k :: SubmissionsOf(u, k) == SubmissionsOf(s, k)
    ensures forall k :: RunningRuns(u, k) == if k == run.task then RunningRuns(s, k) + {s.nextRun} else RunningRuns(s, k)
    ensures s.nextRun !in RunningRuns(s, run.task)
  {
  }

  lemma ClaimKeeps(s: State, t: Id, worker: Text, agent: Option<Text>, now: int)
    requires Keyed(s)
    ensures Good(s) ==> Good(Claim(s, t, worker, agent, now).0)
    ensures Capacity(s) ==> Capacity(Claim(s, t, worker, agent, now).0)
  {
    hide Claim, SubmissionsOf, RunningRuns;
    var u := Claim(s, t, worker, agent, now).0;
    ClaimEffect(s, t, worker, agent, now);
    if u != s {
      ClaimCounts(s, u, u.runs[s.nextRun]);
      if Good(s) {
        forall a, b | a in u.submissions && b in u.submissions && a != b ensures Apart(u, u.submissions[a], u.submissions[b]) {
          assert Apart(s, s.submissions[a], s.submissions[b]);
        }
      }
      if Capacity(s) {
        forall k | k in u.tasks ensures WithinCapacity(u, k) { assert WithinCapacity(s, k); }
      }
    }
  }

  /** What an accepted submission does to the counts of every task. */
  lemma SubmitCounts(s: State, t: Id, run: Option<Id>, agent: Option<Text>, result: Option<Text>)
    requires Keyed(s) && SubmitCheck(s, t, run, agent).None?
    ensures var u := Submit(s, t, run, agent, result);
      && (forall k :: SubmissionsOf(u, k) == if k == t then SubmissionsOf(s, k) + {s.nextSubmission} else SubmissionsOf(s, k))
      && (forall k :: RunningRuns(u, k) == if run.Some? then RunningRuns(s, k) - {run.value} else RunningRuns(s, k))
      && s.nextSubmission !in SubmissionsOf(s, t)
      && (run.Some? ==> run.value in RunningRuns(s, t) && forall k :: k != t ==> run.value !in RunningRuns(s, k))
  {
  }

  lemma SubmitKeepsGood(s: State, t: Id, run: Option<Id>, agent: Option<Text>, result: Option<Text>)
    requires Good(s)
    ensures Good(Submit(s, t, run, agent, result))
  {
    hide Submit, Quorum, OneEach;
    if SubmitCheck(s, t, run, agent).None? {
      SubmitKeepsKeys(s, t, run, agent, result);
      SubmitKeepsQuorum(s, t, run, agent, result);
      SubmitKeepsOneEach(s, t, run, agent, result);
    } else {
      RejectedSubmission(s, t, run, agent, result);
    }
  }

  lemma RejectedSubmission(s: State, t: Id, run: Option<Id>, agent: Option<Text>, result: Option<Text>)
    requires SubmitCheck(s, t, run, agent).Some?
    ensures Submit(s, t, run, agent, result) == s
  {
  }

  lemma SubmitKeepsKeys(s: State, t: Id, run: Option<Id>, agent: Option<Text>, result: Option<Text>)
    requires Keyed(s) && RunsSpent(s) && SubmitCheck(s, t, run, agent).None?
    ensures Keyed(Submit(s, t, run, agent, result)) && RunsSpent(Submit(s, t, run, agent, result))
  {
    hide SubmissionsOf;
  }

  lemma SubmitKeepsQuorum(s: State, t: Id, run: Option<Id>, agent: Option<Text>, result: Option<Text>)
    requires Keyed(s) && Quorum(s) && SubmitCheck(s, t, run, agent).None?
    ensures Quorum(Submit(s, t, run, agent, result))
  {
    hide SubmissionsOf, RunningRuns;
    var u := Submit(s, t, run, agent, result);
    SubmitCounts(s, t, run, agent, result);
    forall k | k in u.tasks
      ensures u.tasks[k].status.Completed? <==> |SubmissionsOf(u, k)| >= u.tasks[k].policy.minSubmissions
    {
      assert k in s.tasks;
      TaskAfterSubmit(s, t, run, agent, result);
    }
  }

  lemma TaskAfterSubmit(s: State, t: Id, run: Option<Id>, agent: Option<Text>, result: Option<Text>)
    requires SubmitCheck(s, t, run, agent).None?
    ensures var u := Submit(s, t, run, agent, result);
      && u.tasks.Keys == s.tasks.Keys && u.tasks[t].policy == s.tasks[t].policy
      && (forall k :: k in s.tasks && k != t ==> u.tasks[k] == s.tasks[k])
      && (u.tasks[t].status.Completed? <==> s.tasks[t].status.Completed? || |SubmissionsOf(u, t)| >= s.tasks[t].policy.minSubmissions)
  {
    var u := Submit(s, t, run, agent, result);
    assert SubmissionsOf(u, t) == set b | b in u.submissions && u.submissions[b].task == t;
  }

  lemma SubmitKeepsOneEach(s: State, t: Id, run: Option<Id>, agent: Option<Text>, result: Option<Text>)
    requires Keyed(s) && OneEach(s) && SubmitCheck(s, t, run, agent).None?
    ensures OneEach(Submit(s, t, run, agent, result))
  {
    hide SubmissionsOf, RunningRuns;
    var u := Submit(s, t, run, agent, result);
    TaskAfterSubmit(s, t, run, agent, result);
    forall a, b | a in u.submissions && b in u.submissions && a != b ensures Apart(u, u.submissions[a], u.submissions[b]) {
      if a != s.nextSubmission && b != s.nextSubmission {
        assert Apart(s, s.submissions[a], s.submissions[b]);
      } else if Named(agent) && s.tasks[t].policy.requireDistinctAgents {
        assert !HasSubmitted(s, t, agent);
      }
    }
  }

  /**
    Capacity and a submission: one that names a run keeps it; one that names none keeps it exactly
    when the task has a free place.
  */
  lemma SubmitCapacityIff(s: State, t: Id, run: Option<Id>, agent: Option<Text>, result: Option<Text>)
    requires Keyed(s) && Capacity(s) && SubmitCheck(s, t, run, agent).None?
    ensures Capacity(Submit(s, t, run, agent, result)) <==>
      run.Some? || |SubmissionsOf(s, t)| + |RunningRuns(s, t)| < s.tasks[t].policy.maxSubmissions
  {
    hide SubmissionsOf, RunningRuns;
    var u := Submit(s, t, run, agent, result);
    SubmitCounts(s, t, run, agent, result);
    TaskAfterSubmit(s, t, run, agent, result);
    forall k | k in s.tasks ensures WithinCapacity(u, k) <==> k != t || run.Some? || |SubmissionsOf(s, t)| + |RunningRuns(s, t)| < s.tasks[t].policy.maxSubmissions {
      assert WithinCapacity(s, k);
      if run.Some? && k != t { assert RunningRuns(u, k) == RunningRuns(s, k); }
    }
    assert t in u.tasks;
  }

  /** Every step keeps the invariants; capacity too, unless a submission names no run. */
  lemma StepKeeps(s: State, step: Step)
    requires Good(s)
    ensures Good(Apply(s, step))
    ensures Capacity(s) && (step.DoSubmit? ==> step.runOf.Some?) ==> Capacity(Apply(s, step))
  {
    hide Quorum, OneEach, RunsSpent, Capacity, NormalizePolicy, SubmitCheck;
    match step {
      case DoCreate(min, max, distinct) =>
        PolicyNormalized(min, max, distinct);
        CreateKeeps(s, NormalizePolicy(min, max, distinct));
      case DoClaim(t, worker, agent, now) => ClaimKeeps(s, t, worker, agent, now);
      case DoFail(run, reason) => StoppingKeeps(s, Apply(s, step));
      case DoHeartbeat(t, run, worker, agent, now) => StoppingKeeps(s, Apply(s, step));
      case DoExpire(picked) =>
        ExpireStops(s, picked);
        StoppingKeeps(s, Apply(s, step));
      case DoSubmit(t, run, agent, result) =>
        SubmitKeepsGood(s, t, run, agent, result);
        if SubmitCheck(s, t, run, agent).None? && Capacity(s) { SubmitCapacityIff(s, t, run, agent, result); }
    }
  }

  function Trace(s: State, steps: seq<Step>): State
    decreases steps
  {
    if steps == [] then s else Trace(Apply(s, steps[0]), steps[1..])
  }

  /**
    Over every sequence of steps: quorum, one submission a named agent, and no run submitting
    twice; and, when every submission names a run, capacity.
  */
  lemma {:induction false} TraceKeeps(s: State, steps: seq<Step>)
    requires Good(s) && Capacity(s)
    ensures Good(Trace(s, steps))
    ensures (forall i :: 0 <= i < |steps| && steps[i].DoSubmit? ==> steps[i].runOf.Some?) ==> Capacity(Trace(s, steps))
    decreases steps
  {
    hide Good, Capacity, Apply;
    if steps != [] {
      StepKeeps(s, steps[0]);
      if Capacity(Apply(s, steps[0])) { TraceKeeps(Apply(s, steps[0]), steps[1..]); }
      else { TraceKeepsGood(Apply(s, steps[0]), steps[1..]); }
      if forall i :: 0 <= i < |steps| && steps[i].DoSubmit? ==> steps[i].runOf.Some? {
        assert forall i :: 0 <= i < |steps| - 1 ==> steps[1..][i] == steps[i + 1];
      }
    }
  }

  lemma {:induction false} TraceKeepsGood(s: State, steps: seq<Step>)
    requires Good(s)
    ensures Good(Trace(s, steps))
    decreases steps
  {
    hide Good, Apply;
    if steps != [] {
      StepKeeps(s, steps[0]);
      TraceKeepsGood(Apply(s, steps[0]), steps[1..]);
    }
  }

  lemma EmptyIsGood()
    ensures Good(Empty) && Capacity(Empty)
  {
  }

  // ----- consequences -----

  function AgentsOf(s: State, t: Id): set<Option<Text>> {
    set b | b in SubmissionsOf(s, t) :: s.submissions[b].agent
  }

  lemma {:induction false} InjectiveImage(s: State, bs: set<Id>)
    requires bs <= s.submissions.Keys
    requires forall a, b :: a in bs && b in bs && a != b ==> s.submissions[a].agent != s.submissions[b].agent
    ensures |set b | b in bs :: s.submissions[b].agent| == |bs|
  {
    if bs != {} {
      var x :| x in bs;
      var rest := bs - {x};
      InjectiveImage(s, rest);
      var all, some := (set b | b in bs :: s.submissions[b].agent), (set b | b in rest :: s.submissions[b].agent);
      assert all == some + {s.submissions[x].agent};
      assert s.submissions[x].agent !in some;
    }
  }

  /** A completed distinct-agent task whose submissions all name an agent has a quorum of different agents. */
  lemma QuorumOfAgents(s: State, t: Id)
    requires Good(s) && t in s.tasks && s.tasks[t].status.Completed? && s.tasks[t].policy.requireDistinctAgents
    requires forall b :: b in SubmissionsOf(s, t) ==> Named(s.submissions[b].agent)
    ensures |AgentsOf(s, t)| == |SubmissionsOf(s, t)| >= s.tasks[t].policy.minSubmissions
  {
    forall a, b | a in SubmissionsOf(s, t) && b in SubmissionsOf(s, t) && a != b
      ensures s.submissions[a].agent != s.submissions[b].agent
    {
      assert Apart(s, s.submissions[a], s.submissions[b]);
    }
    InjectiveImage(s, SubmissionsOf(s, t));
  }

  /** The unique index on a submission's run never fires. */
  lemma RunIndexNeverFires(s: State, t: Id, run: Option<Id>, agent: Option<Text>)
    requires Good(s)
    ensures SubmitCheck(s, t, run, agent) != Some(RunAlreadySubmitted)
  {
  }

  // ----- progress -----

  /** An open task with no running run accepts a fresh agent, who then submits. */
  lemma RoundSucceeds(s: State, t: Id, worker: Text, agent: Text, now: int, result: Option<Text>)
    requires Good(s) && t in s.tasks && s.tasks[t].status.Open? && RunningRuns(s, t) == {}
    requires agent != "" && !HasSubmitted(s, t, Some(agent))
    ensures var c := Claim(s, t, worker, Some(agent), now);
      var u := Submit(c.0, t, Some(s.nextRun), Some(agent), result);
      && c.1 == Claimed(s.nextRun)
      && SubmitCheck(c.0, t, Some(s.nextRun), Some(agent)).None?
      && Good(u) && RunningRuns(u, t) == {} && t in u.tasks && u.tasks[t].policy == s.tasks[t].policy
      && |SubmissionsOf(u, t)| == |SubmissionsOf(s, t)| + 1
      && (forall a :: HasSubmitted(u, t, a) ==> a == Some(agent) || HasSubmitted(s, t, a))
  {
    hide Submit, Good;
    FreshClaim(s, t, worker, agent, now);
    var c := Claim(s, t, worker, Some(agent), now);
    ClaimKeeps(s, t, worker, Some(agent), now);
    FreshSubmit(c.0, t, s.nextRun, agent, result);
  }

  lemma FreshClaim(s: State, t: Id, worker: Text, agent: Text, now: int)
    requires Good(s) && t in s.tasks && s.tasks[t].status.Open? && RunningRuns(s, t) == {}
    requires agent != "" && !HasSubmitted(s, t, Some(agent))
    ensures var (u, r) := Claim(s, t, worker, Some(agent), now);
      && Good(s) && Keyed(s) && r == Claimed(s.nextRun) && u.tasks == s.tasks && u.submissions == s.submissions
      && s.nextRun in u.runs && u.runs[s.nextRun].task == t && u.runs[s.nextRun].agent == Some(agent)
      && RunningRuns(u, t) == {s.nextRun} && SubmissionsOf(u, t) == SubmissionsOf(s, t)
  {
    hide HasSubmitted;
    assert |SubmissionsOf(s, t)| < s.tasks[t].policy.minSubmissions;
    NobodyRuns(s, t, worker, Some(agent));
    var u := Claim(s, t, worker, Some(agent), now).0;
    ClaimCounts(s, u, u.runs[s.nextRun]);
  }

  lemma FreshSubmit(s: State, t: Id, run: Id, agent: Text, result: Option<Text>)
    requires Good(s) && t in s.tasks && RunningRuns(s, t) == {run} && s.runs[run].agent == Some(agent)
    requires agent != "" && !HasSubmitted(s, t, Some(agent))
    ensures var u := Submit(s, t, Some(run), Some(agent), result);
      && SubmitCheck(s, t, Some(run), Some(agent)).None?
      && Good(u) && RunningRuns(u, t) == {} && t in u.tasks && u.tasks[t].policy == s.tasks[t].policy
      && |SubmissionsOf(u, t)| == |SubmissionsOf(s, t)| + 1
      && (forall a :: HasSubmitted(u, t, a) ==> a == Some(agent) || HasSubmitted(s, t, a))
  {
    hide Quorum, OneEach;
    RunIndexNeverFires(s, t, Some(run), Some(agent));
    assert run in RunningRuns(s, t);
    assert SubmitCheck(s, t, Some(run), Some(agent)).None?;
    SubmitKeepsGood(s, t, Some(run), Some(agent), result);
    SubmitCounts(s, t, Some(run), Some(agent), result);
    TaskAfterSubmit(s, t, Some(run), Some(agent), result);
  }

  lemma NobodyRuns(s: State, t: Id, worker: Text, agent: Option<Text>)
    requires RunningRuns(s, t) == {}
    ensures !IsRunning(s, t, agent) && !IdentityTaken(s, t, worker, agent)
  {
    forall r | r in s.runs && s.runs[r].task == t ensures !s.runs[r].status.Running? { assert r !in RunningRuns(s, t); }
  }

  /** Claim and submit, one fresh agent after the other. */
  function Rounds(s: State, t: Id, worker: Text, agents: seq<Text>, now: int): State
    decreases agents
  {
    if agents == [] then s
    else
      var c := Claim(s, t, worker, Some(agents[0]), now);
      Rounds(Submit(c.0, t, Some(s.nextRun), Some(agents[0]), None), t, worker, agents[1..], now)
  }

  ghost predicate Fresh(s: State, t: Id, agents: seq<Text>) {
    && (forall i, j :: 0 <= i < j < |agents| ==> agents[i] != agents[j])
    && (forall i :: 0 <= i < |agents| ==> agents[i] != "" && !HasSubmitted(s, t, Some(agents[i])))
  }

  /** As many fresh agents as the quorum still misses complete the task, and one fewer do not. */
  lemma {:induction false} RoundsComplete(s: State, t: Id, worker: Text, agents: seq<Text>, now: int)
    requires Good(s) && t in s.tasks && s.tasks[t].status.Open? && RunningRuns(s, t) == {} && Fresh(s, t, agents)
    requires |agents| <= s.tasks[t].policy.minSubmissions - |SubmissionsOf(s, t)|
    ensures var u := Rounds(s, t, worker, agents, now);
      && t in u.tasks && |SubmissionsOf(u, t)| == |SubmissionsOf(s, t)| + |agents|
      && (u.tasks[t].status.Completed? <==> |agents| == s.tasks[t].policy.minSubmissions - |SubmissionsOf(s, t)|)
    decreases agents
  {
    hide Claim, Submit, HasSubmitted, RunningRuns;
    if agents == [] {
      assert |SubmissionsOf(s, t)| < s.tasks[t].policy.minSubmissions;
    } else {
      RoundSucceeds(s, t, worker, agents[0], now, None);
      var c := Claim(s, t, worker, Some(agents[0]), now);
      var u := Submit(c.0, t, Some(s.nextRun), Some(agents[0]), None);
      if |agents| == 1 {
        assert agents[1..] == [] && Rounds(u, t, worker, [], now) == u;
      } else {
        assert Fresh(u, t, agents[1..]);
        RoundsComplete(u, t, worker, agents[1..], now);
      }
    }
  }

  /**
    A task never gets stuck: from every good state in which it is open, expiring its runs and then
    claiming and submitting with fresh agents completes it in exactly the missing number of rounds.
  */
  lemma NeverStuck(s: State, t: Id, picked: seq<Id>, worker: Text, agents: seq<Text>, now: int)
    requires Good(s) && t in s.tasks && s.tasks[t].status.Open?
    requires forall r :: r in RunningRuns(s, t) ==> r in picked
    requires Fresh(s, t, agents) && |agents| == s.tasks[t].policy.minSubmissions - |SubmissionsOf(s, t)|
    ensures t in Rounds(Expire(s, picked), t, worker, agents, now).tasks
    ensures Rounds(Expire(s, picked), t, worker, agents, now).tasks[t].status.Completed?
  {
    var u := Expire(s, picked);
    ExpireStops(s, picked);
    StoppingKeeps(s, u);
    assert RunningRuns(u, t) == {};
    assert Fresh(u, t, agents) by { assert u.submissions == s.submissions; }
    RoundsComplete(u, t, worker, agents, now);
  }

  // ----- expiry by the query's own selection -----

  /** One call of `expireStaleReviewTaskRuns`: its cutoff and the runs it picks. */
  datatype Expiry = Expiry(staleBefore: int, picked: seq<Id>)

  /** Calls with cutoff `cut` or later, each picking the oldest stale runs up to the limit. */
  ghost predicate Expiries(s: State, calls: seq<Expiry>, cut: int, limit: nat)
    decreases calls
  {
    calls == [] ||
    (&& cut <= calls[0].staleBefore
     && OldestFirst(Beats(s), StaleRuns(s, calls[0].staleBefore, {}), calls[0].picked, limit)
     && Expiries(Expire(s, calls[0].picked), calls[1..], cut, limit))
  }

  function AfterExpiries(s: State, calls: seq<Expiry>): State
    decreases calls
  {
    if calls == [] then s else AfterExpiries(Expire(s, calls[0].picked), calls[1..])
  }

  lemma {:induction false} ExpireOnly(s: State, picked: seq<Id>)
    ensures var u := Expire(s, picked);
      u.runs.Keys == s.runs.Keys && Beats(u) == Beats(s)
      && forall r :: r in s.runs && r !in picked ==> u.runs[r] == s.runs[r]
    decreases picked
  {
    if picked != [] {
      var v := Fail(s, picked[0], "heartbeat_timeout");
      assert Beats(v) == Beats(s);
      ExpireOnly(v, picked[1..]);
    }
  }

  lemma StaleLeft(s: State, picked: seq<Id>, cut: int)
    ensures StaleRuns(Expire(s, picked), cut, {}) == StaleRuns(s, cut, {}) - Rows(picked)
  {
    ExpireOnly(s, picked);
    ExpireStops(s, picked);
  }

  /** A call leaves no run older than the cutoff, or its limit fewer of them. */
  lemma OldestGo(s: State, call: Expiry, cut: int, limit: nat)
    requires cut <= call.staleBefore && OldestFirst(Beats(s), StaleRuns(s, call.staleBefore, {}), call.picked, limit)
    ensures var left := StaleRuns(Expire(s, call.picked), cut, {});
      left == {} || |left| == |StaleRuns(s, cut, {})| - limit
  {
    hide Rows, OldestFirst;
    StaleLeft(s, call.picked, cut);
    OldestTaken(Beats(s), StaleRuns(s, call.staleBefore, {}), call.picked, limit, StaleRuns(s, cut, {}));
  }

  lemma {:induction false} ExpiriesStop(s: State, calls: seq<Expiry>, cut: int, limit: nat)
    requires Expiries(s, calls, cut, limit) && |StaleRuns(s, cut, {})| <= |calls| * limit
    ensures RunsOnlyStop(s, AfterExpiries(s, calls)) && Beats(AfterExpiries(s, calls)) == Beats(s)
    ensures StaleRuns(AfterExpiries(s, calls), cut, {}) == {}
    decreases calls
  {
    hide StaleRuns, RunsOnlyStop, Beats;
    if calls == [] {
      StoppingNothing(s);
    } else {
      var u := Expire(s, calls[0].picked);
      OldestGo(s, calls[0], cut, limit);
      ExpireOnly(s, calls[0].picked);
      ExpireStops(s, calls[0].picked);
      assert |calls| * limit == |calls[1..]| * limit + limit;
      ExpiriesStop(u, calls[1..], cut, limit);
      StoppingTwice(s, u, AfterExpiries(s, calls));
    }
  }

  lemma StoppingNothing(s: State)
    ensures RunsOnlyStop(s, s)
  {
  }

  lemma StoppingTwice(s: State, u: State, v: State)
    requires RunsOnlyStop(s, u) && RunsOnlyStop(u, v)
    ensures RunsOnlyStop(s, v)
  {
  }

  /**
    A task never gets stuck behind dead workers: when its running runs are older than the cutoff,
    as many calls of the expiry as its limit needs for all runs that old, and then the missing
    number of rounds with fresh agents, complete it.
  */
  lemma NeverStuckBehindRuns(s: State, t: Id, calls: seq<Expiry>, cut: int, limit: nat, worker: Text, agents: seq<Text>, now: int)
    requires Good(s) && t in s.tasks && s.tasks[t].status.Open?
    requires forall r :: r in RunningRuns(s, t) ==> Beats(s)[r] < cut
    requires Expiries(s, calls, cut, limit) && |StaleRuns(s, cut, {})| <= |calls| * limit
    requires Fresh(s, t, agents) && |agents| == s.tasks[t].policy.minSubmissions - |SubmissionsOf(s, t)|
    ensures t in Rounds(AfterExpiries(s, calls), t, worker, agents, now).tasks
    ensures Rounds(AfterExpiries(s, calls), t, worker, agents, now).tasks[t].status.Completed?
  {
    hide Claim, Submit, Expiries, Good;
    var u := AfterExpiries(s, calls);
    ExpiriesStop(s, calls, cut, limit);
    StoppingKeeps(s, u);
    assert RunningRuns(u, t) <= RunningRuns(s, t);
    assert RunningRuns(u, t) <= StaleRuns(u, cut, {});
    assert Fresh(u, t, agents);
    RoundsComplete(u, t, worker, agents, now);
  }

  // ----- a submission without a run -----

  /** The default policy takes one submission: one run is claimed, and a submission arrives that names none. */
  const OVERFULL := [DoCreate(NotFinite, NotFinite, None), DoClaim(1, "worker", None, 0)]

  /** It is accepted, and the task then holds a submission and a running run where one place was allowed. */
  lemma RunlessSubmissionOverfills()
    ensures Good(Trace(Empty, OVERFULL)) && Capacity(Trace(Empty, OVERFULL))
    ensures SubmitCheck(Trace(Empty, OVERFULL), 1, None, None).None?
    ensures !Capacity(Submit(Trace(Empty, OVERFULL), 1, None, None, None))
  {
    hide Good, Capacity, Submit, SubmissionsOf, RunningRuns;
    EmptyIsGood();
    TraceKeeps(Empty, OVERFULL);
    OneRunning();
    assert Keyed(Trace(Empty, OVERFULL)) by { GoodIsKeyed(Trace(Empty, OVERFULL)); }
    SubmitCapacityIff(Trace(Empty, OVERFULL), 1, None, None, None);
  }

  lemma GoodIsKeyed(s: State)
    requires Good(s)
    ensures Keyed(s)
  {
  }

  lemma OneRunning()
    ensures var s := Trace(Empty, OVERFULL);
      1 in s.tasks && s.tasks[1].policy == Policy(1, 1, false) && SubmissionsOf(s, 1) == {} && RunningRuns(s, 1) == {1}
  {
    var p := Policy(1, 1, false);
    var a := Create(Empty, p);
    assert SubmissionsOf(a, 1) == {} && RunningRuns(a, 1) == {};
    assert !IdentityTaken(a, 1, "worker", None);
    var b := Claim(a, 1, "worker", None, 0).0;
    assert OVERFULL[1..][1..] == [];
    assert Trace(Empty, OVERFULL) == b;
  }
}
