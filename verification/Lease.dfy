/**
  The lease protocol of the coordinator (src/coordinator/store.ts): replication jobs and artifact
  maintenance tasks are claimed, kept alive by heartbeats, finished, failed, or expired and
  reopened. Both use the same columns and statements, so the model is generic in what a job is
  about. Completing and failing do not look at the status, so a worker whose lease expired can
  still finish.
*/
module Lease {
  import opened Common
  import opened Queries

  type Id = nat
  type Text = string

  datatype JobStatus = Open | Assigned | Completed | Failed
  datatype RunStatus = Running | RunCompleted | RunFailed

  datatype Job<I> = Job(
    info: I, status: JobStatus, worker: Option<Text>, agent: Option<Text>,
    result: Option<Text>, failure: Option<Text>)

  datatype Run = Run(
    job: Id, worker: Text, agent: Option<Text>, status: RunStatus,
    startedAt: int, heartbeat: Option<int>, result: Option<Text>, failure: Option<Text>)

  /** Serial keys: `nextJob` and `nextRun` are larger than every key in use. */
  datatype State<I> = State(jobs: map<Id, Job<I>>, runs: map<Id, Run>, nextJob: Id, nextRun: Id)

  function Empty<I>(): State<I> {
    State(map[], map[], 1, 1)
  }

  // ----- the statements -----

  function Create<I>(s: State<I>, info: I): State<I> {
    s.(jobs := s.jobs[s.nextJob := Job(info, Open, None, None, None, None)], nextJob := s.nextJob + 1)
  }

  /** `claim…ById`; the second result is the id of the new run. */
  function Claim<I>(s: State<I>, job: Id, worker: Text, agent: Option<Text>, now: int): (State<I>, Option<Id>) {
    if job in s.jobs && s.jobs[job].status.Open? then
      (State(s.jobs[job := s.jobs[job].(status := Assigned, worker := Some(worker), agent := agent)],
             s.runs[s.nextRun := Run(job, worker, agent, Running, now, Some(now), None, None)],
             s.nextJob, s.nextRun + 1),
       Some(s.nextRun))
    else (s, None)
  }

  function Complete<I>(s: State<I>, job: Id, run: Id, result: Text): State<I> {
    s.(jobs := if job in s.jobs then s.jobs[job := s.jobs[job].(status := Completed, result := Some(result))] else s.jobs,
       runs := if run in s.runs then s.runs[run := s.runs[run].(status := RunCompleted, result := Some(result))] else s.runs)
  }

  function Truncated(reason: Text): Text {
    if |reason| > 2000 then reason[..2000] else reason
  }

  function Fail<I>(s: State<I>, job: Id, run: Id, reason: Text): State<I> {
    var why := Some(Truncated(reason));
    s.(jobs := if job in s.jobs then s.jobs[job := s.jobs[job].(status := Failed, failure := why)] else s.jobs,
       runs := if run in s.runs then s.runs[run := s.runs[run].(status := RunFailed, failure := why)] else s.runs)
  }

  predicate Alive<I>(s: State<I>, job: Id, run: Id, worker: Option<Text>, agent: Option<Text>) {
    && run in s.runs && s.runs[run].job == job && s.runs[run].status.Running?
    && job in s.jobs && s.jobs[job].status.Assigned?
    && (agent.Some? ==> s.runs[run].agent == agent)
    && (worker.Some? ==> worker == Some(s.runs[run].worker))
  }

  function Heartbeat<I>(s: State<I>, job: Id, run: Id, worker: Option<Text>, agent: Option<Text>, now: int): State<I> {
    if Alive(s, job, run, worker, agent) then s.(runs := s.runs[run := s.runs[run].(heartbeat := Some(now))]) else s
  }

  /** COALESCE(last_heartbeat_at, started_at). */
  function Beat(r: Run): int {
    if r.heartbeat.Some? then r.heartbeat.value else r.startedAt
  }

  /** Rows that another transaction holds. */
  datatype Locks = Locks(jobs: set<Id>, runs: set<Id>)

  predicate Held<I>(s: State<I>, run: Id) {
    && run in s.runs && s.runs[run].status.Running?
    && s.runs[run].job in s.jobs && s.jobs[s.runs[run].job].status.Assigned?
  }

  predicate Stale<I>(s: State<I>, run: Id, staleBefore: int, locks: Locks) {
    Held(s, run) && Beat(s.runs[run]) < staleBefore && run !in locks.runs && s.runs[run].job !in locks.jobs
  }

  function Beats<I>(s: State<I>): map<Id, int> {
    map r | r in s.runs :: Beat(s.runs[r])
  }

  function StaleRuns<I>(s: State<I>, staleBefore: int, locks: Locks): set<Id> {
    set r | r in s.runs && Stale(s, r, staleBefore, locks)
  }

  function Limit(limit: Option<int>): (r: nat)
    ensures 1 <= r <= 200
    ensures limit.None? ==> r == 50
    ensures limit.Some? && 1 <= limit.value <= 200 ==> r == limit.value
  {
    Max(1, Min(if limit.Some? then limit.value else 50, 200))
  }

  /** The runs an expiry round picks: the oldest stale ones, skipping locked rows. */
  ghost predicate Selection<I>(s: State<I>, picked: seq<Id>, staleBefore: int, limit: nat, locks: Locks) {
    OldestFirst(Beats(s), StaleRuns(s, staleBefore, locks), picked, limit)
  }

  function ExpireOne<I>(s: State<I>, run: Id): State<I> {
    if run !in s.runs then s
    else
      var job := s.runs[run].job;
      s.(runs := s.runs[run := s.runs[run].(status := RunFailed, failure := Some("heartbeat_timeout"))],
         jobs := if job in s.jobs then s.jobs[job := s.jobs[job].(status := Open, worker := None, agent := None)] else s.jobs)
  }

  function ExpireAll<I>(s: State<I>, picked: seq<Id>): State<I>
    decreases picked
  {
    if picked == [] then s else ExpireAll(ExpireOne(s, picked[0]), picked[1..])
  }

  /** The job that `claimNext…` takes: the smallest open one that is wanted and not locked. */
  predicate Claimable<I>(s: State<I>, job: Id, locks: Locks, wanted: I -> bool) {
    job in s.jobs && s.jobs[job].status.Open? && job !in locks.jobs && wanted(s.jobs[job].info)
  }

  predicate IsNext<I>(s: State<I>, job: Id, locks: Locks, wanted: I -> bool) {
    Claimable(s, job, locks, wanted) && forall j :: j in s.jobs && Claimable(s, j, locks, wanted) ==> job <= j
  }

  // ----- safety -----

  ghost predicate Keyed<I>(s: State<I>) {
    && (forall j :: j in s.jobs ==> j < s.nextJob)
    && (forall r :: r in s.runs ==> r < s.nextRun && s.runs[r].job in s.jobs)
  }

  ghost predicate RunsOn<I>(s: State<I>, job: Id, run: Id) {
    run in s.runs && s.runs[run].status.Running? && s.runs[run].job == job
  }

  /**
    The lease invariant: a job has at most one running run; an open job has none and no
    assignee; an assigned job has one, by exactly the assigned worker and agent.
  */
  ghost predicate LeaseHeld<I>(s: State<I>, j: Id)
    requires j in s.jobs
  {
    var job := s.jobs[j];
    && (forall r, q :: RunsOn(s, j, r) && RunsOn(s, j, q) ==> r == q)
    && (job.status.Open? ==> job.worker == None && job.agent == None && forall r :: !RunsOn(s, j, r))
    && (job.status.Assigned? ==>
          exists r :: RunsOn(s, j, r) && job.worker == Some(s.runs[r].worker) && job.agent == s.runs[r].agent)
  }

  ghost predicate Safe<I>(s: State<I>) {
    Keyed(s) && forall j :: j in s.jobs ==> LeaseHeld(s, j)
  }

  /** Every job other than `job` keeps its row and its running runs. */
  lemma OthersKept<I>(s: State<I>, t: State<I>, job: Id)
    requires Safe(s) && Keyed(t) && t.jobs.Keys == s.jobs.Keys
    requires forall j :: j in s.jobs && j != job ==> t.jobs[j] == s.jobs[j]
    requires forall j, r :: j != job ==> (RunsOn(t, j, r) <==> RunsOn(s, j, r))
    requires forall r :: r in s.runs ==> r in t.runs && t.runs[r].worker == s.runs[r].worker && t.runs[r].agent == s.runs[r].agent
    requires job in t.jobs ==> LeaseHeld(t, job)
    ensures Safe(t)
  {
    forall j | j in t.jobs ensures LeaseHeld(t, j) {
      if j != job {
        assert LeaseHeld(s, j);
        if s.jobs[j].status.Assigned? {
          var r :| RunsOn(s, j, r) && s.jobs[j].worker == Some(s.runs[r].worker) && s.jobs[j].agent == s.runs[r].agent;
          assert RunsOn(t, j, r);
        }
      }
    }
  }

  lemma CreateSafe<I>(s: State<I>, info: I)
    requires Safe(s)
    ensures Safe(Create(s, info))
  {
    var t := Create(s, info);
    forall j | j in t.jobs ensures LeaseHeld(t, j) {
      forall k, r ensures RunsOn(t, k, r) <==> RunsOn(s, k, r) {}
      if j != s.nextJob {
        assert LeaseHeld(s, j);
        if s.jobs[j].status.Assigned? {
          var r :| RunsOn(s, j, r) && s.jobs[j].worker == Some(s.runs[r].worker) && s.jobs[j].agent == s.runs[r].agent;
          assert RunsOn(t, j, r);
        }
      }
    }
  }

  lemma ClaimSafe<I>(s: State<I>, job: Id, worker: Text, agent: Option<Text>, now: int)
    requires Safe(s)
    ensures Safe(Claim(s, job, worker, agent, now).0)
  {
    var t := Claim(s, job, worker, agent, now).0;
    if job in s.jobs && s.jobs[job].status.Open? {
      assert LeaseHeld(s, job);
      assert RunsOn(t, job, s.nextRun);
      forall r | RunsOn(t, job, r) ensures r == s.nextRun { if r != s.nextRun { assert RunsOn(s, job, r); } }
      OthersKept(s, t, job);
    }
  }

  /** Ending a run of the job together with the job, whatever their status was. */
  lemma EndSafe<I>(s: State<I>, t: State<I>, job: Id, run: Id)
    requires Safe(s) && Keyed(t) && t.jobs.Keys == s.jobs.Keys && t.runs.Keys == s.runs.Keys
    requires run in s.runs ==> s.runs[run].job == job
    requires forall j :: j in s.jobs && j != job ==> t.jobs[j] == s.jobs[j]
    requires job in t.jobs ==> !t.jobs[job].status.Open? && !t.jobs[job].status.Assigned?
    requires forall r :: r in s.runs && r != run ==> t.runs[r] == s.runs[r]
    requires run in t.runs ==> !t.runs[run].status.Running? && t.runs[run].job == job
    requires run in t.runs ==> t.runs[run].worker == s.runs[run].worker && t.runs[run].agent == s.runs[run].agent
    ensures Safe(t)
  {
    if job in t.jobs {
      assert LeaseHeld(s, job);
      forall r, q | RunsOn(t, job, r) && RunsOn(t, job, q) ensures r == q {
        assert RunsOn(s, job, r) && RunsOn(s, job, q);
      }
    }
    OthersKept(s, t, job);
  }

  lemma HeartbeatRuns<I>(s: State<I>, job: Id, run: Id, worker: Option<Text>, agent: Option<Text>, now: int)
    requires Keyed(s)
    ensures var t := Heartbeat(s, job, run, worker, agent, now);
      && t.jobs == s.jobs && Keyed(t)
      && (forall j, r :: RunsOn(t, j, r) <==> RunsOn(s, j, r))
      && forall r :: r in s.runs ==> r in t.runs && t.runs[r].worker == s.runs[r].worker && t.runs[r].agent == s.runs[r].agent
  {
  }

  lemma HeartbeatSafe<I>(s: State<I>, job: Id, run: Id, worker: Option<Text>, agent: Option<Text>, now: int)
    requires Safe(s)
    ensures Safe(Heartbeat(s, job, run, worker, agent, now))
  {
    hide Heartbeat, Keyed, RunsOn;
    var t := Heartbeat(s, job, run, worker, agent, now);
    HeartbeatRuns(s, job, run, worker, agent, now);
    SameRuns(s, t);
  }

  lemma SameRuns<I>(s: State<I>, t: State<I>)
    requires Safe(s) && Keyed(t) && t.jobs == s.jobs
    requires forall j, r :: RunsOn(t, j, r) <==> RunsOn(s, j, r)
    requires forall r :: r in s.runs ==> r in t.runs && t.runs[r].worker == s.runs[r].worker && t.runs[r].agent == s.runs[r].agent
    ensures Safe(t)
  {
    hide Keyed;
    forall j | j in t.jobs ensures LeaseHeld(t, j) {
      assert LeaseHeld(s, j);
      if s.jobs[j].status.Assigned? {
        var r :| RunsOn(s, j, r) && s.jobs[j].worker == Some(s.runs[r].worker) && s.jobs[j].agent == s.runs[r].agent;
        assert RunsOn(t, j, r);
      }
    }
  }

  lemma ExpireOneRuns<I>(s: State<I>, run: Id)
    requires Keyed(s) && Held(s, run)
    ensures var t := ExpireOne(s, run);
      && Keyed(t) && t.jobs.Keys == s.jobs.Keys && t.runs.Keys == s.runs.Keys
      && (forall j :: j in s.jobs && j != s.runs[run].job ==> t.jobs[j] == s.jobs[j])
      && (forall r :: r in s.runs && r != run ==> t.runs[r] == s.runs[r])
      && (forall j, r :: RunsOn(t, j, r) <==> RunsOn(s, j, r) && r != run)
      && t.jobs[s.runs[run].job] == Reopened(s.jobs[s.runs[run].job]) && t.runs[run] == TimedOut(s.runs[run])
  {
  }

  lemma ExpireOneSafe<I>(s: State<I>, run: Id)
    requires Safe(s) && Held(s, run)
    ensures Safe(ExpireOne(s, run))
    ensures forall r :: Held(s, r) && r != run ==> Held(ExpireOne(s, run), r) && ExpireOne(s, run).runs[r] == s.runs[r]
  {
    hide Safe, ExpireOne, Keyed;
    var t, job := ExpireOne(s, run), s.runs[run].job;
    SafeIsKeyed(s);
    ExpireOneRuns(s, run);
    OnlyRun(s, run);
    assert LeaseHeld(t, job);
    OthersKept(s, t, job);
    forall r | Held(s, r) && r != run ensures Held(t, r) {
      assert RunsOn(s, s.runs[r].job, r);
    }
  }

  lemma OnlyRun<I>(s: State<I>, run: Id)
    requires Safe(s) && Held(s, run)
    ensures forall r :: RunsOn(s, s.runs[run].job, r) <==> r == run
  {
    assert LeaseHeld(s, s.runs[run].job) && RunsOn(s, s.runs[run].job, run);
  }

  ghost predicate AllHeld<I>(s: State<I>, picked: seq<Id>) {
    && (forall i :: 0 <= i < |picked| ==> Held(s, picked[i]))
    && (forall i, j :: 0 <= i < j < |picked| ==> picked[i] != picked[j])
  }

  lemma {:induction false} ExpireAllSafe<I>(s: State<I>, picked: seq<Id>)
    requires Safe(s) && AllHeld(s, picked)
    ensures Safe(ExpireAll(s, picked))
    decreases picked
  {
    hide Safe, Held, ExpireOne;
    if picked != [] {
      ExpireOneSafe(s, picked[0]);
      assert AllHeld(ExpireOne(s, picked[0]), picked[1..]);
      ExpireAllSafe(ExpireOne(s, picked[0]), picked[1..]);
    }
  }

  function TimedOut(r: Run): Run {
    r.(status := RunFailed, failure := Some("heartbeat_timeout"))
  }

  function Reopened<I>(j: Job<I>): Job<I> {
    j.(status := Open, worker := None, agent := None)
  }

  /** Expiry fails exactly the picked runs. */
  lemma {:induction false} RunsExpired<I>(s: State<I>, picked: seq<Id>)
    requires Safe(s) && AllHeld(s, picked)
    ensures var t := ExpireAll(s, picked);
      t.runs.Keys == s.runs.Keys && forall r :: r in s.runs ==> t.runs[r] == if r in picked then TimedOut(s.runs[r]) else s.runs[r]
    decreases picked
  {
    hide Safe;
    if picked != [] {
      ExpireOneSafe(s, picked[0]);
      assert AllHeld(ExpireOne(s, picked[0]), picked[1..]);
      RunsExpired(ExpireOne(s, picked[0]), picked[1..]);
      assert forall r :: r in picked <==> r == picked[0] || r in picked[1..];
    }
  }

  ghost predicate JobOf<I>(s: State<I>, j: Id, picked: seq<Id>) {
    exists i :: 0 <= i < |picked| && picked[i] in s.runs && s.runs[picked[i]].job == j
  }

  /** Expiry reopens exactly the jobs of the picked runs. */
  lemma {:induction false} JobsReopened<I>(s: State<I>, picked: seq<Id>, j: Id)
    requires Safe(s) && AllHeld(s, picked) && j in s.jobs
    ensures var t := ExpireAll(s, picked);
      t.jobs.Keys == s.jobs.Keys && t.jobs[j] == if JobOf(s, j, picked) then Reopened(s.jobs[j]) else s.jobs[j]
    decreases picked
  {
    hide Safe;
    if picked != [] {
      var u, rest := ExpireOne(s, picked[0]), picked[1..];
      ExpireOneSafe(s, picked[0]);
      assert AllHeld(u, rest);
      JobsReopened(u, rest, j);
      assert JobOf(s, j, picked) <==> s.runs[picked[0]].job == j || JobOf(u, j, rest) by {
        if i :| 0 <= i < |rest| && rest[i] in u.runs && u.runs[rest[i]].job == j { assert picked[i + 1] == rest[i]; }
        if i :| 1 <= i < |picked| && s.runs[picked[i]].job == j { assert rest[i - 1] == picked[i]; }
      }
    }
  }

  // ----- runs of the protocol -----

  datatype Step<I> =
    | DoCreate(info: I)
    | DoClaim(job: Id, worker: Text, agent: Option<Text>, now: int)
    | DoComplete(job: Id, run: Id, result: Text)
    | DoFail(job: Id, run: Id, reason: Text)
    | DoHeartbeat(job: Id, run: Id, byWorker: Option<Text>, byAgent: Option<Text>, now: int)
    | DoExpire(picked: seq<Id>, staleBefore: int, limit: nat, locks: Locks)

  function Apply<I>(s: State<I>, step: Step<I>): State<I> {
    match step
    case DoCreate(info) => Create(s, info)
    case DoClaim(job, worker, agent, now) => Claim(s, job, worker, agent, now).0
    case DoComplete(job, run, result) => Complete(s, job, run, result)
    case DoFail(job, run, reason) => Fail(s, job, run, reason)
    case DoHeartbeat(job, run, worker, agent, now) => Heartbeat(s, job, run, worker, agent, now)
    case DoExpire(picked, _, _, _) => ExpireAll(s, picked)
  }

  /** A worker names the job its run belongs to, and expiry picks what its query selects. */
  ghost predicate Allowed<I>(s: State<I>, step: Step<I>) {
    match step
    case DoComplete(job, run, _) => run in s.runs ==> s.runs[run].job == job
    case DoFail(job, run, _) => run in s.runs ==> s.runs[run].job == job
    case DoExpire(picked, staleBefore, limit, locks) => Selection(s, picked, staleBefore, limit, locks)
    case _ => true
  }

  lemma SelectionHeld<I>(s: State<I>, picked: seq<Id>, staleBefore: int, limit: nat, locks: Locks)
    requires Selection(s, picked, staleBefore, limit, locks)
    ensures AllHeld(s, picked)
  {
    forall i, j | 0 <= i < j < |picked| ensures picked[i] != picked[j] { assert Earlier(Beats(s), picked[i], picked[j]); }
  }

  /** Every step keeps the lease invariant. */
  lemma StepSafe<I>(s: State<I>, step: Step<I>)
    requires Safe(s) && Allowed(s, step)
    ensures Safe(Apply(s, step))
  {
    hide Safe, Selection, ExpireAll, LeaseHeld;
    assert Keyed(s) by { SafeIsKeyed(s); }
    match step {
      case DoCreate(info) => CreateSafe(s, info);
      case DoClaim(job, worker, agent, now) => ClaimSafe(s, job, worker, agent, now);
      case DoComplete(job, run, _) => EndSafe(s, Apply(s, step), job, run);
      case DoFail(job, run, _) => EndSafe(s, Apply(s, step), job, run);
      case DoHeartbeat(job, run, worker, agent, now) => HeartbeatSafe(s, job, run, worker, agent, now);
      case DoExpire(picked, staleBefore, limit, locks) =>
        SelectionHeld(s, picked, staleBefore, limit, locks);
        ExpireAllSafe(s, picked);
    }
  }

  lemma SafeIsKeyed<I>(s: State<I>)
    requires Safe(s)
    ensures Keyed(s)
  {
  }

  /** Keys are created once; facts about a run that no later step takes back. */
  ghost predicate Kept<I>(s: State<I>, t: State<I>) {
    && s.nextJob <= t.nextJob && s.nextRun <= t.nextRun
    && (forall r :: r in s.runs ==> r in t.runs && RunKept(s.runs[r], t.runs[r]))
    && (forall j :: j in s.jobs ==> j in t.jobs && JobKept(s.jobs[j], t.jobs[j]))
  }

  /** Its job, worker and agent never change, and once it stopped it never runs again. */
  predicate RunKept(r: Run, q: Run) {
    && q.job == r.job && q.worker == r.worker && q.agent == r.agent && q.startedAt == r.startedAt
    && (!r.status.Running? ==> !q.status.Running?)
  }

  /** What it is about never changes, and once it is completed or failed it is never reopened. */
  ghost predicate JobKept<I>(j: Job<I>, k: Job<I>) {
    k.info == j.info && (Terminal(j.status) ==> Terminal(k.status))
  }

  predicate Terminal(s: JobStatus) {
    s.Completed? || s.Failed?
  }

  lemma StepKeeps<I>(s: State<I>, step: Step<I>)
    requires Safe(s) && Allowed(s, step)
    ensures Kept(s, Apply(s, step))
  {
    hide LeaseHeld, Selection, ExpireAll;
    match step {
      case DoExpire(picked, staleBefore, limit, locks) =>
        SelectionHeld(s, picked, staleBefore, limit, locks);
        ExpireKeeps(s, picked);
      case _ =>
    }
  }

  lemma ExpireOneKeeps<I>(s: State<I>, run: Id)
    requires Held(s, run)
    ensures Kept(s, ExpireOne(s, run))
  {
  }

  lemma {:induction false} ExpireKeeps<I>(s: State<I>, picked: seq<Id>)
    requires Safe(s) && AllHeld(s, picked)
    ensures Kept(s, ExpireAll(s, picked))
    decreases picked
  {
    hide Safe, Kept, Held, ExpireOne;
    if picked != [] {
      var u := ExpireOne(s, picked[0]);
      ExpireOneSafe(s, picked[0]);
      ExpireOneKeeps(s, picked[0]);
      assert AllHeld(u, picked[1..]);
      ExpireKeeps(u, picked[1..]);
      KeptTransitive(s, u, ExpireAll(s, picked));
    } else {
      KeptReflexive(s);
    }
  }

  function Trace<I>(s: State<I>, steps: seq<Step<I>>): State<I>
    decreases steps
  {
    if |steps| == 0 then s else Trace(Apply(s, steps[0]), steps[1..])
  }

  ghost predicate AllAllowed<I>(s: State<I>, steps: seq<Step<I>>)
    decreases steps
  {
    |steps| == 0 || (Allowed(s, steps[0]) && AllAllowed(Apply(s, steps[0]), steps[1..]))
  }

  /**
    Lease safety: from any safe state, so from the empty database, every interleaving of claims,
    heartbeats, completions and failures (stale ones included) and expiries keeps the lease
    invariant, never restarts a run and never reopens a finished job.
  */
  lemma {:induction false} LeaseSafety<I>(s: State<I>, steps: seq<Step<I>>)
    requires Safe(s) && AllAllowed(s, steps)
    ensures Safe(Trace(s, steps)) && Kept(s, Trace(s, steps))
    decreases steps
  {
    hide Safe, Allowed, Apply, RunKept, JobKept;
    if |steps| > 0 {
      StepSafe(s, steps[0]);
      StepKeeps(s, steps[0]);
      LeaseSafety(Apply(s, steps[0]), steps[1..]);
      KeptTransitive(s, Apply(s, steps[0]), Trace(s, steps));
    } else {
      KeptReflexive(s);
    }
  }

  lemma KeptReflexive<I>(s: State<I>)
    ensures Kept(s, s)
  {
  }

  lemma KeptTransitive<I>(s: State<I>, t: State<I>, u: State<I>)
    requires Kept(s, t) && Kept(t, u)
    ensures Kept(s, u)
  {
  }

  lemma EmptyIsSafe<I>()
    ensures Safe<I>(Empty())
  {
  }

  /**
    A heartbeat reaches only the current holder: it goes through exactly when the run is the one
    running run of an assigned job and the names given are the job's assignees.
  */
  lemma HeartbeatOnlyForHolder<I>(s: State<I>, job: Id, run: Id, worker: Option<Text>, agent: Option<Text>)
    requires Safe(s)
    ensures Alive(s, job, run, worker, agent) <==>
      && job in s.jobs && s.jobs[job].status.Assigned?
      && (forall r :: RunsOn(s, job, r) <==> r == run)
      && (worker.Some? ==> worker == s.jobs[job].worker) && (agent.Some? ==> agent == s.jobs[job].agent)
  {
    if job in s.jobs && s.jobs[job].status.Assigned? {
      assert LeaseHeld(s, job);
      var r :| RunsOn(s, job, r) && s.jobs[job].worker == Some(s.runs[r].worker) && s.jobs[job].agent == s.runs[r].agent;
      if Alive(s, job, run, worker, agent) { assert RunsOn(s, job, run); }
    }
  }

  /** Completing with a run of another job breaks the invariant exactly when that run is held. */
  lemma CompleteSafeIff<I>(s: State<I>, job: Id, run: Id, result: Text)
    requires Safe(s)
    ensures Safe(Complete(s, job, run, result)) <==> !(Held(s, run) && s.runs[run].job != job)
  {
    hide Safe;
    assert Keyed(s) by { SafeIsKeyed(s); }
    var t := Complete(s, job, run, result);
    if Held(s, run) && s.runs[run].job != job {
      StolenRun(s, t, job, run);
    } else if run in s.runs && s.runs[run].job == job {
      EndSafe(s, t, job, run);
    } else {
      ForeignEndSafe(s, t, job, run);
    }
  }

  /** Failing with a run of another job likewise breaks the invariant exactly when that run is held. */
  lemma FailSafeIff<I>(s: State<I>, job: Id, run: Id, reason: Text)
    requires Safe(s)
    ensures Safe(Fail(s, job, run, reason)) <==> !(Held(s, run) && s.runs[run].job != job)
  {
    hide Safe;
    assert Keyed(s) by { SafeIsKeyed(s); }
    var t := Fail(s, job, run, reason);
    if Held(s, run) && s.runs[run].job != job {
      StolenRun(s, t, job, run);
    } else if run in s.runs && s.runs[run].job == job {
      EndSafe(s, t, job, run);
    } else {
      ForeignEndSafe(s, t, job, run);
    }
  }

  lemma StolenRun<I>(s: State<I>, t: State<I>, job: Id, run: Id)
    requires Safe(s) && Held(s, run) && s.runs[run].job != job
    requires t.jobs.Keys == s.jobs.Keys && t.runs.Keys == s.runs.Keys && t.jobs[s.runs[run].job] == s.jobs[s.runs[run].job]
    requires !t.runs[run].status.Running? && forall r :: r in s.runs && r != run ==> t.runs[r] == s.runs[r]
    ensures !Safe(t)
  {
    var other := s.runs[run].job;
    assert LeaseHeld(s, other) && RunsOn(s, other, run);
    assert forall r :: RunsOn(t, other, r) ==> RunsOn(s, other, r) && r != run;
    assert !LeaseHeld(t, other);
  }

  lemma ForeignEndSafe<I>(s: State<I>, t: State<I>, job: Id, run: Id)
    requires Safe(s) && !Held(s, run) && (run in s.runs ==> s.runs[run].job != job)
    requires Keyed(t) && t.jobs.Keys == s.jobs.Keys && t.runs.Keys == s.runs.Keys
    requires forall j :: j in s.jobs && j != job ==> t.jobs[j] == s.jobs[j]
    requires job in t.jobs ==> Terminal(t.jobs[job].status)
    requires forall r :: r in s.runs && r != run ==> t.runs[r] == s.runs[r]
    requires run in t.runs ==> RunKept(s.runs[run], t.runs[run]) && !t.runs[run].status.Running?
    ensures Safe(t)
  {
    forall j | j in t.jobs ensures LeaseHeld(t, j) {
      assert LeaseHeld(s, j);
      assert forall r :: RunsOn(t, j, r) ==> RunsOn(s, j, r);
      if t.jobs[j].status.Assigned? {
        var r :| RunsOn(s, j, r) && s.jobs[j].worker == Some(s.runs[r].worker) && s.jobs[j].agent == s.runs[r].agent;
        assert r != run && RunsOn(t, j, r);
      }
    }
  }

  lemma Unfold<I>(s: State<I>, step: Step<I>, rest: seq<Step<I>>)
    ensures Trace(s, [step] + rest) == Trace(Apply(s, step), rest)
    ensures AllAllowed(s, [step] + rest) <==> Allowed(s, step) && AllAllowed(Apply(s, step), rest)
  {
    hide Apply, Allowed;
    assert ([step] + rest)[1..] == rest;
  }

  /** Two jobs, each claimed by its own worker: job 1 in run 1, job 2 in run 2. */
  function TwoLeases<I>(info: I): (r: seq<Step<I>>)
  {
    [DoCreate(info)] + ([DoCreate(info)] + ([DoClaim(1, "first", None, 0)] + ([DoClaim(2, "second", None, 0)] + [])))
  }

  /** Finishing job 1 with run 2 ends the lease of job 2, which stays assigned without a run. */
  lemma ForeignRunBreaks<I>(info: I)
    ensures AllAllowed(Empty(), TwoLeases(info)) && Safe(Trace(Empty(), TwoLeases(info)))
    ensures var s := Trace(Empty(), TwoLeases(info));
      && Held(s, 2) && s.runs[2].job == 2
      && !Safe(Complete(s, 1, 2, "result")) && !Safe(Fail(s, 1, 2, "reason"))
  {
    hide Safe, Complete, Fail, Claim;
    EmptyIsSafe<I>();
    var a := Create<I>(Empty(), info);
    var b := Create(a, info);
    var c := Claim(b, 1, "first", None, 0).0;
    var d := Claim(c, 2, "second", None, 0).0;
    Unfold(c, DoClaim(2, "second", None, 0), []);
    Unfold(b, DoClaim(1, "first", None, 0), [DoClaim(2, "second", None, 0)] + []);
    Unfold(a, DoCreate(info), [DoClaim(1, "first", None, 0)] + ([DoClaim(2, "second", None, 0)] + []));
    Unfold<I>(Empty(), DoCreate(info), [DoCreate(info)] + ([DoClaim(1, "first", None, 0)] + ([DoClaim(2, "second", None, 0)] + [])));
    LeaseSafety<I>(Empty(), TwoLeases(info));
    SecondRunHeld(info);
    CompleteSafeIff(d, 1, 2, "result");
    FailSafeIff(d, 1, 2, "reason");
  }

  lemma SecondRunHeld<I>(info: I)
    ensures var d := Claim(Claim(Create(Create<I>(Empty(), info), info), 1, "first", None, 0).0, 2, "second", None, 0).0;
      Held(d, 2) && d.runs[2].job == 2
  {
  }
}
