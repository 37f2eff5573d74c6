/**
  Deduplication of artifact maintenance tasks (src/coordinator/store.ts,
  `createArtifactMaintenanceTask`): at most one open or assigned task per artifact, task type and
  target replica, with no target and the empty target being the same.
*/
module Maintenance {
  import opened Common
  import opened Queries
  import opened Lease
  import opened JobStore

  datatype Task = Task(artifact: Text, kind: Text, target: Option<Text>, requestedBy: Text, provider: Option<Text>)

  /** COALESCE(target_replica_key, ''). */
  function Identity(t: Task): (Text, Text, Text) {
    (t.artifact, t.kind, if t.target.Some? then t.target.value else "")
  }

  predicate Active(s: State<Task>, j: Id) {
    j in s.jobs && (s.jobs[j].status.Open? || s.jobs[j].status.Assigned?)
  }

  predicate Twin(s: State<Task>, j: Id, t: Task) {
    Active(s, j) && Identity(s.jobs[j].info) == Identity(t)
  }

  ghost predicate Unique(s: State<Task>) {
    forall j, k :: Active(s, j) && Active(s, k) && Identity(s.jobs[j].info) == Identity(s.jobs[k].info) ==> j == k
  }

  /** Returns the oldest active task with the identity, or inserts an open one. */
  method CreateTask(store: Jobs<Task>, t: Task) returns (id: Id)
    modifies store
    ensures (exists j :: Twin(old(store.View()), j, t)) ==>
      Twin(old(store.View()), id, t) && (forall j :: Twin(old(store.View()), j, t) ==> id <= j) && store.View() == old(store.View())
    ensures (forall j :: !Twin(old(store.View()), j, t)) ==>
      id == old(store.nextJob) && store.View() == Create(old(store.View()), t)
  {
    var s := store.View();
    var twins := set j | j in store.jobs && Twin(s, j, t);
    assert forall j :: Twin(s, j, t) ==> j in twins;
    if twins != {} {
      ghost var least := SmallestId(twins);
      id :| id in twins && forall j :: j in twins ==> id <= j;
    } else {
      id := store.CreateJob(t);
    }
  }

  /** A step of the protocol in which tasks are created through `CreateTask`. */
  ghost function TaskStep(s: State<Task>, step: Step<Task>): State<Task> {
    if step.DoCreate? && exists j :: Twin(s, j, step.info) then s else Apply(s, step)
  }

  lemma {:induction false} ExpiryKeepsTasks(s: State<Task>, picked: seq<Id>)
    ensures ExpireAll(s, picked).jobs.Keys == s.jobs.Keys
    decreases picked
  {
    if picked != [] { ExpiryKeepsTasks(ExpireOne(s, picked[0]), picked[1..]); }
  }

  lemma CreateKeepsUnique(s: State<Task>, t: Task)
    requires Keyed(s) && Unique(s) && forall j :: !Twin(s, j, t)
    ensures Unique(Create(s, t))
  {
    var u := Create(s, t);
    forall j, k | Active(u, j) && Active(u, k) && Identity(u.jobs[j].info) == Identity(u.jobs[k].info) ensures j == k {
      if j != s.nextJob && k != s.nextJob { assert Active(s, j) && Active(s, k); }
      else if j != s.nextJob { assert !Twin(s, j, t); }
      else if k != s.nextJob { assert !Twin(s, k, t); }
    }
  }

  /** Claiming, expiring, completing and failing never make a second active task; nor does creating. */
  lemma StepKeepsUnique(s: State<Task>, step: Step<Task>)
    requires Safe(s) && Unique(s) && Allowed(s, step)
    ensures Safe(TaskStep(s, step)) && Unique(TaskStep(s, step))
  {
    hide Safe, LeaseHeld, Allowed, RunKept;
    var t := TaskStep(s, step);
    StepSafe(s, step);
    StepKeeps(s, step);
    if !step.DoCreate? {
      if step.DoExpire? { ExpiryKeepsTasks(s, step.picked); }
      assert t.jobs.Keys == s.jobs.Keys;
      forall j | Active(t, j) ensures Active(s, j) && t.jobs[j].info == s.jobs[j].info {
        assert JobKept(s.jobs[j], t.jobs[j]);
      }
    } else if forall j :: !Twin(s, j, step.info) {
      SafeIsKeyed(s);
      CreateKeepsUnique(s, step.info);
    }
  }

  ghost function TaskTrace(s: State<Task>, steps: seq<Step<Task>>): State<Task>
    decreases steps
  {
    if |steps| == 0 then s else TaskTrace(TaskStep(s, steps[0]), steps[1..])
  }

  ghost predicate TasksAllowed(s: State<Task>, steps: seq<Step<Task>>)
    decreases steps
  {
    |steps| == 0 || (Allowed(s, steps[0]) && TasksAllowed(TaskStep(s, steps[0]), steps[1..]))
  }

  /** Across any order of steps there is at most one active task per identity. */
  lemma {:induction false} TasksStayUnique(s: State<Task>, steps: seq<Step<Task>>)
    requires Safe(s) && Unique(s) && TasksAllowed(s, steps)
    ensures Safe(TaskTrace(s, steps)) && Unique(TaskTrace(s, steps))
    decreases steps
  {
    hide Safe, Unique, Allowed, TaskStep;
    if |steps| > 0 {
      StepKeepsUnique(s, steps[0]);
      TasksStayUnique(TaskStep(s, steps[0]), steps[1..]);
    }
  }

  // ----- the racing insert -----

  /**
    Two creators may both find no twin; the second insert then violates the partial unique index
    and the function falls back to the list page of open tasks. Filters that are empty are skipped.
  */
  predicate FallbackHit(s: State<Task>, j: Id, t: Task) {
    && j in s.jobs && s.jobs[j].status.Open?
    && (t.artifact != "" ==> s.jobs[j].info.artifact == t.artifact)
    && (t.kind != "" ==> s.jobs[j].info.kind == t.kind)
    && (t.target.Some? && t.target.value != "" ==> s.jobs[j].info.target == t.target)
  }

  /** The page is ordered by task id and its first item is returned. */
  ghost predicate FallbackPick(s: State<Task>, j: Id, t: Task) {
    FallbackHit(s, j, t) && forall k :: FallbackHit(s, k, t) ==> j <= k
  }

  /** What the fallback returns; nothing means that the insert's error is thrown again. */
  method FallbackTask(store: Jobs<Task>, t: Task) returns (id: Option<Id>)
    ensures id.Some? ==> FallbackPick(store.View(), id.value, t)
    ensures id.None? ==> forall j :: !FallbackHit(store.View(), j, t)
  {
    var s := store.View();
    var hits := set j | j in store.jobs && FallbackHit(s, j, t);
    assert forall j :: FallbackHit(s, j, t) ==> j in hits;
    if hits == {} { return None; }
    ghost var least := SmallestId(hits);
    var j :| j in hits && forall k :: k in hits ==> j <= k;
    id := Some(j);
  }

  predicate Targeted(t: Task) {
    t.target.Some? && t.target.value != ""
  }

  /** The oldest open task on the artifact and of the type, whatever its target. */
  ghost predicate OldestOpen(s: State<Task>, j: Id, t: Task) {
    SameSubject(s, j, t) && forall k :: SameSubject(s, k, t) ==> j <= k
  }

  predicate SameSubject(s: State<Task>, j: Id, t: Task) {
    j in s.jobs && s.jobs[j].status.Open? && s.jobs[j].info.artifact == t.artifact && s.jobs[j].info.kind == t.kind
  }

  /**
    The exact outcome of losing the race to `twin`, the active task that the index protects. With a
    target the fallback returns the twin while it is open and fails once a worker has claimed it.
    Without one it returns the oldest open task on the artifact and of the type, and that is the
    twin if and only if that oldest task has no target.
  */
  lemma FallbackFaithfulIff(s: State<Task>, t: Task, twin: Id)
    requires t.artifact != "" && t.kind != "" && Unique(s) && Twin(s, twin, t)
    ensures Targeted(t) ==> forall j :: FallbackPick(s, j, t) <==> j == twin && s.jobs[twin].status.Open?
    ensures !Targeted(t) ==> forall j :: FallbackPick(s, j, t) <==> OldestOpen(s, j, t)
    ensures forall j :: FallbackPick(s, j, t) ==> (Twin(s, j, t) <==> Targeted(t) || !Targeted(s.jobs[j].info))
    ensures FallbackPick(s, twin, t) <==>
      s.jobs[twin].status.Open? && (Targeted(t) || forall j :: OldestOpen(s, j, t) ==> !Targeted(s.jobs[j].info))
  {
    forall j ensures FallbackHit(s, j, t) <==> SameSubject(s, j, t) && (Targeted(t) ==> s.jobs[j].info.target == t.target) {}
    if Targeted(t) {
      forall j | FallbackHit(s, j, t) ensures j == twin { assert Twin(s, j, t) && Active(s, j) && Active(s, twin); }
      assert s.jobs[twin].status.Open? ==> FallbackHit(s, twin, t);
    } else if s.jobs[twin].status.Open? {
      assert SameSubject(s, twin, t) && !Targeted(s.jobs[twin].info);
      var j := OldestExists(s, t, twin);
      if !Targeted(s.jobs[j].info) { assert Twin(s, j, t) && Active(s, j) && Active(s, twin); }
    }
  }

  lemma OldestExists(s: State<Task>, t: Task, any: Id) returns (j: Id)
    requires SameSubject(s, any, t)
    ensures OldestOpen(s, j, t)
  {
    var open := set k | k in s.jobs && SameSubject(s, k, t);
    assert any in open;
    j := SmallestId(open);
    assert forall k :: SameSubject(s, k, t) ==> k in open;
  }

  const REPLICA := Task("artifact", "repair", Some("replica"), "operator", None)
  const WHOLE := Task("artifact", "repair", None, "operator", None)

  /**
    Two creations reach a state in which a whole-artifact request that loses the race is answered
    with the task for one replica.
  */
  lemma FallbackReturnsOtherTarget()
    ensures TasksAllowed(Empty(), [DoCreate(REPLICA), DoCreate(WHOLE)])
    ensures var s := TaskTrace(Empty(), [DoCreate(REPLICA), DoCreate(WHOLE)]);
      Unique(s) && Twin(s, 2, WHOLE) && FallbackPick(s, 1, WHOLE) && !Twin(s, 1, WHOLE)
  {
    var none: State<Task> := Empty();
    var one := Create(none, REPLICA);
    var two := Create(one, WHOLE);
    assert |Identity(REPLICA).2| == 7;
    assert TaskStep(none, DoCreate(REPLICA)) == one;
    assert TaskStep(one, DoCreate(WHOLE)) == two;
    var steps := [DoCreate(REPLICA), DoCreate(WHOLE)];
    assert steps[1..] == [DoCreate(WHOLE)] && steps[1..][1..] == [];
    assert TaskTrace(one, steps[1..]) == two && TasksAllowed(one, steps[1..]);
  }
}
