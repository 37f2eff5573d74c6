/**
  Heartbeats and expiry over whole runs of the lease protocol (src/coordinator/store.ts): which
  runs an expiry may take, told by the claims and heartbeats of a trace alone, and what a job ends
  as, told by its last finishing step.
*/
module LeaseTime {
  import opened Common
  import opened Queries
  import opened Lease

  // ----- traces from the back -----

  lemma {:induction false} TraceSnoc<I>(s: State<I>, steps: seq<Step<I>>)
    requires steps != []
    ensures Trace(s, steps) == Apply(Trace(s, steps[..|steps| - 1]), steps[|steps| - 1])
    ensures AllAllowed(s, steps) ==>
      AllAllowed(s, steps[..|steps| - 1]) && Allowed(Trace(s, steps[..|steps| - 1]), steps[|steps| - 1])
    decreases steps
  {
    hide Apply, Allowed;
    var init := steps[..|steps| - 1];
    if |steps| == 1 {
      assert steps[1..] == [] && init == [];
    } else {
      TraceSnoc(Apply(s, steps[0]), steps[1..]);
      assert steps[1..][..|steps| - 2] == init[1..];
    }
  }

  // ----- signs of life -----

  /** The step is the claim that started the run, or a heartbeat that goes through for it. */
  predicate SignOfLife<I>(before: State<I>, step: Step<I>, run: Id) {
    || (step.DoClaim? && Claim(before, step.job, step.worker, step.agent, step.now).1 == Some(run))
    || (step.DoHeartbeat? && step.run == run && Alive(before, step.job, run, step.byWorker, step.byAgent))
  }

  ghost predicate SignAt<I>(steps: seq<Step<I>>, i: nat, run: Id)
    requires i < |steps|
  {
    SignOfLife(Trace(Empty(), steps[..i]), steps[i], run)
  }

  /** The time that a claim or a heartbeat carries. */
  function TimeOf<I>(step: Step<I>): Option<int> {
    match step
    case DoClaim(_, _, _, now) => Some(now)
    case DoHeartbeat(_, _, _, _, now) => Some(now)
    case _ => None
  }

  /** One clock that never goes back. */
  ghost predicate Clocked<I>(steps: seq<Step<I>>) {
    forall i, j :: 0 <= i < j < |steps| && TimeOf(steps[i]).Some? && TimeOf(steps[j]).Some? ==> TimeOf(steps[i]).value <= TimeOf(steps[j]).value
  }

  /** No sign of life of the run at `cutoff` or later. */
  ghost predicate Silent<I>(steps: seq<Step<I>>, run: Id, cutoff: int) {
    forall i :: 0 <= i < |steps| && SignAt(steps, i, run) ==> TimeOf(steps[i]).Some? && TimeOf(steps[i]).value < cutoff
  }

  /** The time of the last sign of life. */
  ghost function LastSign<I>(steps: seq<Step<I>>, run: Id): Option<int> {
    if |steps| == 0 then None
    else if SignAt(steps, |steps| - 1, run) then TimeOf(steps[|steps| - 1])
    else LastSign(steps[..|steps| - 1], run)
  }

  /** What a step other than a sign of life does to a run's beat: nothing. */
  lemma BeatKept<I>(s: State<I>, step: Step<I>, run: Id)
    requires Safe(s) && Allowed(s, step)
    ensures var u := Apply(s, step);
      && (run in s.runs ==> run in u.runs)
      && (run in u.runs ==>
            if SignOfLife(s, step, run) then Some(Beat(u.runs[run])) == TimeOf(step)
            else run in s.runs && Beat(u.runs[run]) == Beat(s.runs[run]))
  {
    hide LeaseHeld, Selection, ExpireAll, Alive;
    if step.DoExpire? {
      SelectionHeld(s, step.picked, step.staleBefore, step.limit, step.locks);
      RunsExpired(s, step.picked);
    }
  }

  lemma {:induction false} BeatIsLastSign<I>(steps: seq<Step<I>>, run: Id)
    requires AllAllowed(Empty(), steps)
    ensures Safe(Trace(Empty(), steps))
    ensures run in Trace(Empty(), steps).runs ==> LastSign(steps, run) == Some(Beat(Trace(Empty(), steps).runs[run]))
  {
    hide Safe, Apply, Allowed, SignOfLife, Trace, AllAllowed;
    EmptyIsSafe<I>();
    if |steps| == 0 {
      NothingRun<I>(steps);
    } else {
      var init, step := steps[..|steps| - 1], steps[|steps| - 1];
      TraceSnoc<I>(Empty(), steps);
      BeatIsLastSign(init, run);
      BeatKept(Trace(Empty(), init), step, run);
      StepSafe(Trace(Empty(), init), step);
    }
  }

  lemma NothingRun<I>(steps: seq<Step<I>>)
    requires |steps| == 0
    ensures Trace(Empty(), steps) == Empty<I>()
  {
  }

  lemma {:induction false} SilentIffLastSign<I>(steps: seq<Step<I>>, run: Id, cutoff: int)
    requires Clocked(steps) && LastSign(steps, run).Some?
    ensures Silent(steps, run, cutoff) <==> LastSign(steps, run).value < cutoff
  {
    hide SignOfLife, Trace;
    var last := |steps| - 1;
    var init := steps[..last];
    forall i | 0 <= i < last ensures SignAt(steps, i, run) <==> SignAt(init, i, run) { assert steps[..i] == init[..i]; }
    if SignAt(steps, last, run) {
      forall i | 0 <= i < |steps| && SignAt(steps, i, run) ensures TimeOf(steps[i]).Some? && TimeOf(steps[i]).value <= TimeOf(steps[last]).value {
        SignsAreTimed(Trace(Empty(), steps[..i]), steps[i], run);
      }
    } else {
      SilentIffLastSign(init, run, cutoff);
    }
  }

  lemma SignsAreTimed<I>(s: State<I>, step: Step<I>, run: Id)
    requires SignOfLife(s, step, run)
    ensures TimeOf(step).Some?
  {
  }

  /**
    Exactly when a run is stale: over every interleaving on one clock, an expiry with cutoff
    `cutoff` may take a run if and only if it is held, its rows are not locked, and neither its
    claim nor any heartbeat that went through for it is at the cutoff or later.
  */
  lemma StaleIffSilent<I>(steps: seq<Step<I>>, run: Id, cutoff: int, locks: Locks)
    requires AllAllowed(Empty(), steps) && Clocked(steps)
    ensures var s := Trace(Empty(), steps);
      run in StaleRuns(s, cutoff, locks) <==>
        && Held(s, run) && run !in locks.runs && s.runs[run].job !in locks.jobs
        && Silent(steps, run, cutoff)
  {
    hide Trace, AllAllowed, Silent, Clocked, LastSign, Safe;
    BeatIsLastSign(steps, run);
    if run in Trace(Empty(), steps).runs { SilentIffLastSign(steps, run, cutoff); }
  }

  // ----- a heartbeat keeps the lease -----

  /** The run holds the job and was heard of at `now` or later. */
  predicate HeardOf<I>(s: State<I>, job: Id, run: Id, now: int) {
    Held(s, run) && s.runs[run].job == job && Beat(s.runs[run]) >= now
  }

  /** A step after time `now` of anyone, except that the job is not finished and cutoffs are not later. */
  predicate LeavesAlone<I>(step: Step<I>, job: Id, now: int) {
    match step
    case DoComplete(j, _, _) => j != job
    case DoFail(j, _, _) => j != job
    case DoExpire(_, staleBefore, _, _) => staleBefore <= now
    case DoHeartbeat(_, _, _, _, at) => now <= at
    case _ => true
  }

  lemma StillHeardOf<I>(s: State<I>, step: Step<I>, job: Id, run: Id, now: int)
    requires Safe(s) && Allowed(s, step) && HeardOf(s, job, run, now) && LeavesAlone(step, job, now)
    ensures HeardOf(Apply(s, step), job, run, now) && Apply(s, step).jobs[job] == s.jobs[job]
  {
    hide LeaseHeld, ExpireAll;
    match step {
      case DoExpire(picked, staleBefore, limit, locks) =>
        SelectionHeld(s, picked, staleBefore, limit, locks);
        NotPicked(s, picked, staleBefore, limit, locks, run, now);
        RunsExpired(s, picked);
        JobsReopened(s, picked, job);
        NotItsJob(s, run, picked);
      case _ =>
    }
  }

  lemma NotItsJob<I>(s: State<I>, run: Id, picked: seq<Id>)
    requires Safe(s) && Held(s, run) && AllHeld(s, picked) && run !in picked
    ensures !JobOf(s, s.runs[run].job, picked)
  {
    hide Safe;
    OnlyRun(s, run);
    forall i | 0 <= i < |picked| ensures s.runs[picked[i]].job != s.runs[run].job {
      assert RunsOn(s, s.runs[run].job, picked[i]) <==> picked[i] == run;
      assert picked[i] in picked && Held(s, picked[i]);
    }
  }

  lemma NotPicked<I>(s: State<I>, picked: seq<Id>, staleBefore: int, limit: nat, locks: Locks, run: Id, now: int)
    requires Selection(s, picked, staleBefore, limit, locks) && run in s.runs && staleBefore <= now <= Beat(s.runs[run])
    ensures run !in picked
  {
  }

  lemma {:induction false} LeaseStays<I>(s: State<I>, steps: seq<Step<I>>, job: Id, run: Id, now: int)
    requires Safe(s) && AllAllowed(s, steps) && HeardOf(s, job, run, now)
    requires forall i :: 0 <= i < |steps| ==> LeavesAlone(steps[i], job, now)
    ensures HeardOf(Trace(s, steps), job, run, now) && Trace(s, steps).jobs[job] == s.jobs[job]
    decreases steps
  {
    hide Safe, Allowed, Apply, HeardOf, LeavesAlone;
    if |steps| > 0 {
      assert LeavesAlone(steps[0], job, now);
      StillHeardOf(s, steps[0], job, run, now);
      StepSafe(s, steps[0]);
      LeaseStays(Apply(s, steps[0]), steps[1..], job, run, now);
    }
  }

  /**
    A heartbeat keeps the lease: after one that goes through at time `now`, whatever anyone does and
    however many expiries with cutoffs up to `now` run, the job stays assigned to the same holder in
    the same run, until it is finished or a later cutoff is used.
  */
  lemma HeartbeatKeepsLease<I>(s: State<I>, steps: seq<Step<I>>, job: Id, run: Id, worker: Option<Text>, agent: Option<Text>, now: int)
    requires Safe(s) && Alive(s, job, run, worker, agent)
    requires AllAllowed(Heartbeat(s, job, run, worker, agent, now), steps)
    requires forall i :: 0 <= i < |steps| ==> LeavesAlone(steps[i], job, now)
    ensures var u := Trace(Heartbeat(s, job, run, worker, agent, now), steps);
      Held(u, run) && u.runs[run].job == job && job in u.jobs && u.jobs[job] == s.jobs[job]
  {
    hide Safe, AllAllowed, Trace;
    HeartbeatSafe(s, job, run, worker, agent, now);
    LeaseStays(Heartbeat(s, job, run, worker, agent, now), steps, job, run, now);
  }

  // ----- what a job's row says -----

  /** The step creates the job, assigns it, finishes it, or expires its run. */
  ghost predicate Moves<I>(before: State<I>, step: Step<I>, job: Id) {
    match step
    case DoCreate(_) => job == before.nextJob
    case DoClaim(j, _, _, _) => j == job && job in before.jobs && before.jobs[job].status.Open?
    case DoComplete(j, _, _) => j == job && job in before.jobs
    case DoFail(j, _, _) => j == job && job in before.jobs
    case DoExpire(picked, _, _, _) => job in before.jobs && JobOf(before, job, picked)
    case DoHeartbeat(_, _, _, _, _) => false
  }

  ghost function LastMove<I>(steps: seq<Step<I>>, job: Id): Option<Step<I>> {
    if |steps| == 0 then None
    else if Moves(Trace(Empty(), steps[..|steps| - 1]), steps[|steps| - 1], job) then Some(steps[|steps| - 1])
    else LastMove(steps[..|steps| - 1], job)
  }

  /** The row as the step that last moved the job leaves it. */
  ghost predicate MovedTo<I>(j: Job<I>, move: Step<I>) {
    match move
    case DoCreate(info) => j.info == info && j.status.Open? && j.worker == None && j.agent == None
    case DoClaim(_, worker, agent, _) => j.status.Assigned? && j.worker == Some(worker) && j.agent == agent
    case DoComplete(_, _, result) => j.status.Completed? && j.result == Some(result)
    case DoFail(_, _, reason) => j.status.Failed? && j.failure == Some(if |reason| > 2000 then reason[..2000] else reason)
    case DoExpire(_, _, _, _) => j.status.Open? && j.worker == None && j.agent == None
    case DoHeartbeat(_, _, _, _, _) => false
  }

  ghost predicate MovedAs<I>(s: State<I>, job: Id, move: Option<Step<I>>) {
    (job in s.jobs <==> move.Some?) && (job in s.jobs ==> MovedTo(s.jobs[job], move.value))
  }

  lemma MoveStep<I>(s: State<I>, step: Step<I>, job: Id, move: Option<Step<I>>)
    requires Safe(s) && Allowed(s, step) && MovedAs(s, job, move)
    ensures MovedAs(Apply(s, step), job, if Moves(s, step, job) then Some(step) else move)
  {
    hide LeaseHeld, Selection, ExpireAll, Alive;
    if step.DoExpire? {
      SelectionHeld(s, step.picked, step.staleBefore, step.limit, step.locks);
      if job in s.jobs { JobsReopened(s, step.picked, job); } else { NoNewJobs(s, step.picked); }
    }
  }

  lemma {:induction false} NoNewJobs<I>(s: State<I>, picked: seq<Id>)
    ensures ExpireAll(s, picked).jobs.Keys == s.jobs.Keys
    decreases picked
  {
    if picked != [] { NoNewJobs(ExpireOne(s, picked[0]), picked[1..]); }
  }

  /**
    Over every interleaving a job's row is what the step that last moved it says: open after its
    creation or the expiry of its run, assigned to the worker and the agent of the claim, completed
    with the result or failed with the reason that was given.
  */
  lemma {:induction false} JobMovesAs<I>(steps: seq<Step<I>>, job: Id)
    requires AllAllowed(Empty(), steps)
    ensures Safe(Trace(Empty(), steps)) && MovedAs(Trace(Empty(), steps), job, LastMove(steps, job))
  {
    hide Safe, Apply, Allowed, Moves, MovedTo, Trace, AllAllowed;
    EmptyIsSafe<I>();
    if |steps| == 0 {
      NothingRun<I>(steps);
    } else {
      var init, step := steps[..|steps| - 1], steps[|steps| - 1];
      TraceSnoc<I>(Empty(), steps);
      JobMovesAs(init, job);
      MoveStep(Trace(Empty(), init), step, job, LastMove(init, job));
      StepSafe(Trace(Empty(), init), step);
    }
  }

  // ----- how a run ends -----

  predicate EndsRun<I>(before: State<I>, step: Step<I>, run: Id) {
    run in before.runs &&
    match step
    case DoComplete(_, r, _) => r == run
    case DoFail(_, r, _) => r == run
    case DoExpire(picked, _, _, _) => run in picked
    case _ => false
  }

  ghost function LastEnd<I>(steps: seq<Step<I>>, run: Id): Option<Step<I>> {
    if |steps| == 0 then None
    else if EndsRun(Trace(Empty(), steps[..|steps| - 1]), steps[|steps| - 1], run) then Some(steps[|steps| - 1])
    else LastEnd(steps[..|steps| - 1], run)
  }

  predicate RunEndedAs<I>(r: Run, end: Option<Step<I>>) {
    match end
    case Some(DoComplete(_, _, result)) => r.status.RunCompleted? && r.result == Some(result)
    case Some(DoFail(_, _, reason)) => r.status.RunFailed? && r.failure == Some(if |reason| > 2000 then reason[..2000] else reason)
    case Some(DoExpire(_, _, _, _)) => r.status.RunFailed? && r.failure == Some("heartbeat_timeout")
    case _ => r.status.Running?
  }

  lemma RunEndStep<I>(s: State<I>, step: Step<I>, run: Id, end: Option<Step<I>>)
    requires Safe(s) && Allowed(s, step)
    requires if run in s.runs then RunEndedAs(s.runs[run], end) else end.None?
    ensures var u := Apply(s, step);
      var next := if EndsRun(s, step, run) then Some(step) else end;
      if run in u.runs then RunEndedAs(u.runs[run], next) else next.None?
  {
    hide LeaseHeld, Selection, ExpireAll;
    if step.DoExpire? {
      SelectionHeld(s, step.picked, step.staleBefore, step.limit, step.locks);
      RunsExpired(s, step.picked);
    }
  }

  /** Over every interleaving a run is running, completed, failed or timed out as the last step that ended it says. */
  lemma {:induction false} RunEndsAs<I>(steps: seq<Step<I>>, run: Id)
    requires AllAllowed(Empty(), steps)
    ensures Safe(Trace(Empty(), steps))
    ensures var u := Trace(Empty(), steps);
      if run in u.runs then RunEndedAs(u.runs[run], LastEnd(steps, run)) else LastEnd(steps, run).None?
  {
    hide Safe, Apply, Allowed, EndsRun, RunEndedAs, Trace, AllAllowed;
    EmptyIsSafe<I>();
    if |steps| == 0 {
      NothingRun<I>(steps);
    } else {
      var init, step := steps[..|steps| - 1], steps[|steps| - 1];
      TraceSnoc<I>(Empty(), steps);
      RunEndsAs(init, run);
      RunEndStep(Trace(Empty(), init), step, run, LastEnd(init, run));
      StepSafe(Trace(Empty(), init), step);
    }
  }
}
