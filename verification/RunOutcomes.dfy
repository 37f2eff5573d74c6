/**
  What can go wrong in a run, after any earlier runs. The chunk theorems ask that the events are
  grounded in the tables the run starts from; here that is proved of every store that earlier runs
  leave, so the only errors of the indexer are its refusals and the forecast foreign key.
*/
module RunOutcomes {
  import opened Common
  import opened ReadModel
  import opened NormalForm
  import opened Projector
  import opened ChunkOutcome
  import opened LogColumns
  import opened SyncRuns
  import opened CatchUp
  import opened Retries

  /** The rows that events refer to: keys, and the bodies of decisions. */
  ghost predicate SameReferences(p: Tables, q: Tables) {
    && p.claims.Keys == q.claims.Keys && p.replications.Keys == q.replications.Keys && p.decisions.Keys == q.decisions.Keys
    && forall d :: d in p.decisions ==> q.decisions[d].body == p.decisions[d].body
  }

  lemma GroundsCarry(p: Tables, q: Tables, e: Event, h: Head)
    requires SameReferences(p, q) && GroundedEvent(p, e, h)
    ensures GroundedEvent(q, e, h)
  {
    if e.ResolutionDecisionRecorded? && ReplicationDecided(q, e.decision.replicationId) {
      var d :| d in q.decisions && q.decisions[d].body.replicationId == e.decision.replicationId;
      assert d in p.decisions && p.decisions[d].body.replicationId == e.decision.replicationId;
    }
  }

  /** No head can change them. */
  lemma ColumnsRefer(p: Tables, q: Tables, m: Marks)
    requires Columns(p, q, m)
    ensures SameReferences(q, p)
  {
    hide SameClaim, ForecastColumns, ChallengeColumns, AppealColumns;
    forall d | d in p.decisions ensures q.decisions[d].body == p.decisions[d].body {
      assert p.decisions[d].(createdAt := q.decisions[d].createdAt) == q.decisions[d];
    }
  }

  /** What is grounded in one fold of the log is grounded in the log indexed under any heads. */
  lemma GroundedAfterRuns(a: seq<Event>, hs: seq<Head>, b: seq<Event>, h: Head)
    requires |a| == |hs| && Grounded(EmptyTables, a + b, h)
    ensures Grounded(ProjectUnder(EmptyTables, a, hs), b, h)
  {
    hide GroundedEvent, Project, ProjectUnder, Columns, Marked, SameReferences;
    var s := ProjectUnder(EmptyTables, a, hs);
    forall j | 0 <= j < |b| ensures GroundedEvent(Project(s, b[..j], h), b[j], h) {
      var es := a + b[..j];
      assert (a + b)[..|a| + j] == es && (a + b)[|a| + j] == b[j];
      ProjectUnderMore(EmptyTables, a, hs, b[..j], h);
      LogColumnsAgree(EmptyTables, es, hs + Repeat(h, j), h);
      ColumnsRefer(Project(s, b[..j], h), Project(EmptyTables, es, h), Marked(es));
      GroundsCarry(Project(EmptyTables, es, h), Project(s, b[..j], h), b[j], h);
    }
  }

  /** The blocks that a run may index refer only to what came before them on its chain. */
  ghost predicate GroundedRun(a: Attempt) {
    var first, latest := FirstBlock(a.config.deploymentBlock), LatestBlock(a.network, a.config);
    first <= latest < |a.network.chain| ==> Grounded(EmptyTables, LogOf(a.network.chain, first, latest + 1), a.network.head)
  }

  /** A longer life of the process changes nothing once a chunk has failed. */
  lemma {:induction false} FailsWhateverTheBudget(s: Store, n: Network, batch: nat, from: nat, latest: int, budget: nat, more: nat)
    requires batch > 0 && latest < |n.chain| && budget <= more
    ensures var r := Advance(s, n, batch, from, latest, budget);
      r.error.Some? ==> Advance(s, n, batch, from, latest, more) == r
    decreases latest - from
  {
    hide Exec, BatchStmts, LogOf;
    if budget != 0 && from <= latest {
      var to := Min(from + batch - 1, latest);
      var r := ApplyChunk(s, n, from, to);
      if r.error.None? { FailsWhateverTheBudget(r.store, n, batch, to + 1, latest, budget - 1, more - 1); }
    }
  }

  /** The store with which a run enters the chunk loop after the earlier runs. */
  function Entered(s: Store, a: Attempt): SyncResult {
    var base := EnsureBaseState(s, a.config);
    if base.error.Some? then base else CheckReorg(base.store, a.config, a.network.chain)
  }

  lemma EnteredGrounded(s: Store, attempts: seq<Attempt>, a: Attempt, content: Hash -> (Hash, seq<Event>))
    requires Faithful(s, attempts) && AllCanonical(attempts, content) && Canonical(a.network.chain, content) && GroundedRun(a)
    requires Entered(s, a).error.None?
    ensures var u, latest := Entered(s, a).store, LatestBlock(a.network, a.config);
      && u.tables == s.tables
      && u.cursor.Some? && FromBlock(u, a.config) == u.cursor.value + 1
      && (u.cursor.value + 1 <= latest ==>
            latest < |a.network.chain| && OrderedLog(LogOf(a.network.chain, u.cursor.value + 1, latest + 1))
            && Grounded(s.tables, LogOf(a.network.chain, u.cursor.value + 1, latest + 1), a.network.head))
  {
    hide OrderedLog, ProjectUnder, LogOf, Canonical, Grounded, AllCanonical, Faithful, HeadsSeen;
    var u, n, latest := Entered(s, a).store, a.network, LatestBlock(a.network, a.config);
    var first := FirstBlock(a.config.deploymentBlock);
    var hs := ChecksPassed(s, attempts, a, content);
    assert u.tables == s.tables;
    if u.cursor.value + 1 <= latest {
      var from := u.cursor.value + 1;
      CanonicalOrdered(n.chain, content);
      OrderedSlice(n.chain, from, latest + 1);
      LogOfConcat(n.chain, first, from, latest + 1);
      if u.cursor.value < first { NoLog(n.chain, first, hs); }
      GroundedAfterRuns(LogOf(n.chain, first, from), hs, LogOf(n.chain, from, latest + 1), n.head);
    }
  }

  ghost function LoopError(t: Tables, n: Network, batch: nat, from: nat, latest: nat): Option<SyncError>
    requires batch > 0 && latest < |n.chain|
  {
    if Timely(t, n, batch, from, latest) then None else Some(ChunkFailed(ForeignKey(KForecast)))
  }

  /**
    The outcome of a run after any earlier runs, crashes and chain replacements: it is refused, or
    it has nothing to do, or, given enough transactions, it reaches the latest block if and only if
    the stored decisions are recorded in time, and stops on the forecast foreign key otherwise.
  */
  lemma RunOutcomeExact(attempts: seq<Attempt>, a: Attempt, content: Hash -> (Hash, seq<Event>))
    requires AllCanonical(attempts, content) && Canonical(a.network.chain, content) && GroundedRun(a) && a.config.batchSize > 0
    requires a.budget >= |a.network.chain|
    ensures forall i :: 0 <= i < |attempts| ==> attempts[i].config.batchSize > 0
    ensures var s, n, c := Runs(FreshStore, attempts), a.network, a.config;
      var entered, latest := Entered(s, a), LatestBlock(n, c);
      var r := Sync(s, c, n, a.budget);
      if entered.error.Some? then r == entered
      else
        && entered.store.cursor.Some?
        && (entered.store.cursor.value >= latest ==> r == entered)
        && (entered.store.cursor.value < latest ==>
              latest < |n.chain| && r.error == LoopError(s.tables, n, c.batchSize, entered.store.cursor.value + 1, latest))
  {
    hide OrderedLog, LogOf, Canonical, Grounded, AllCanonical, Faithful, HeadsSeen, GroundedRun, Timely, Advance, Runs, Entered, Sound;
    RunsStayFaithful(attempts, content);
    var s, n, c := Runs(FreshStore, attempts), a.network, a.config;
    SyncEnters(s, a);
    if Entered(s, a).error.None? {
      EnteredGrounded(s, attempts, a, content);
      var u, latest := Entered(s, a).store, LatestBlock(n, c);
      if u.cursor.value + 1 <= latest {
        RunsStaySound(attempts);
        CatchUpExact(u, n, c.batchSize, u.cursor.value + 1, latest, a.budget);
      }
    }
  }

  lemma SyncEnters(s: Store, a: Attempt)
    requires a.config.batchSize > 0
    ensures var u, latest := Entered(s, a), LatestBlock(a.network, a.config);
      Sync(s, a.config, a.network, a.budget) ==
        if u.error.Some? || FromBlock(u.store, a.config) > latest then u
        else Advance(u.store, a.network, a.config.batchSize, FromBlock(u.store, a.config), latest, a.budget)
  {
    hide Advance;
  }

  /**
    Over every sequence of runs on grounded chains, a run that fails was refused, or it met the
    forecast foreign key: no "was not present" error and no other constraint is ever raised.
  */
  lemma OnlyForecastsFail(attempts: seq<Attempt>, a: Attempt, content: Hash -> (Hash, seq<Event>))
    requires AllCanonical(attempts, content) && Canonical(a.network.chain, content) && GroundedRun(a) && a.config.batchSize > 0
    ensures forall i :: 0 <= i < |attempts| ==> attempts[i].config.batchSize > 0
    ensures var r := Sync(Runs(FreshStore, attempts), a.config, a.network, a.budget);
      r.error.Some? && r.error.value.ChunkFailed? ==> r.error.value.error == ForeignKey(KForecast)
  {
    hide OrderedLog, LogOf, Canonical, Grounded, AllCanonical, Faithful, HeadsSeen, Timely, Advance, Runs, Entered, Sound;
    RunsStayFaithful(attempts, content);
    var s, n, c := Runs(FreshStore, attempts), a.network, a.config;
    var longer := a.(budget := a.budget + |n.chain|);
    SyncEnters(s, a);
    SyncEnters(s, longer);
    RunOutcomeExact(attempts, longer, content);
    EntrySameBudget(s, a, longer);
    if Entered(s, a).error.None? {
      EnteredGrounded(s, attempts, a, content);
      var u, latest := Entered(s, a).store, LatestBlock(n, c);
      if u.cursor.value + 1 <= latest {
        FailsWhateverTheBudget(u, n, c.batchSize, u.cursor.value + 1, latest, a.budget, longer.budget);
      }
    } else {
      RefusalsAreNotChunks(s, a);
    }
  }

  lemma EntrySameBudget(s: Store, a: Attempt, b: Attempt)
    requires a.config == b.config && a.network == b.network
    ensures Entered(s, a) == Entered(s, b)
  {
  }

  lemma RefusalsAreNotChunks(s: Store, a: Attempt)
    requires Entered(s, a).error.Some?
    ensures !Entered(s, a).error.value.ChunkFailed?
  {
  }

  /** So a retry after any runs meets what `GetsPastIff` and `StuckForever` ask of its next chunk. */
  lemma NextChunkGrounded(attempts: seq<Attempt>, a: Attempt, content: Hash -> (Hash, seq<Event>))
    requires AllCanonical(attempts, content) && Canonical(a.network.chain, content) && GroundedRun(a)
    ensures forall i :: 0 <= i < |attempts| ==> attempts[i].config.batchSize > 0
    ensures var s := Runs(FreshStore, attempts);
      HasNext(s, a.config, a.network) ==>
        Sound(s.tables) && OrderedLog(NextChunk(s, a.config, a.network))
        && Grounded(s.tables, NextChunk(s, a.config, a.network), a.network.head)
  {
    hide OrderedLog, LogOf, Canonical, Grounded, AllCanonical, Faithful, HeadsSeen, Runs, Sound, Project;
    RunsStayFaithful(attempts, content);
    RunsStaySound(attempts);
    var s, n, c := Runs(FreshStore, attempts), a.network, a.config;
    if HasNext(s, c, n) {
      assert EnsureBaseState(s, c).store == s && Entered(s, a) == SyncResult(s, None);
      EnteredGrounded(s, attempts, a, content);
      var from, end, latest := s.cursor.value + 1, NextEnd(s, c, n), LatestBlock(n, c);
      LogOfConcat(n.chain, from, end + 1, latest + 1);
      LogOrderedFront(LogOf(n.chain, from, end + 1), LogOf(n.chain, end + 1, latest + 1));
      GroundedRest(s.tables, LogOf(n.chain, from, end + 1), LogOf(n.chain, end + 1, latest + 1), n.head);
    }
  }
}
