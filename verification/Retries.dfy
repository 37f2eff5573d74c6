/**
  Retrying after a chunk has stopped on the forecast foreign key (src/indexer/projector.ts,
  `syncReadModel`). A retry usually sees a longer chain and a later head, so it is not the same
  computation again: it gets past the block that stopped the earlier run exactly when every
  forecast in its own first chunk has its decision by the end of that chunk.
*/
module Retries {
  import opened Common
  import opened ReadModel
  import opened NormalForm
  import opened Projector
  import opened ChunkOutcome
  import opened SyncRuns

  /** A run over `n` passes its checks at the cursor and goes on behind it. */
  predicate Resumes(s: Store, c: Config, n: Network) {
    && s.deployment == Some((c.chainId, c.deploymentBlock))
    && s.cursor.Some? && c.deploymentBlock <= s.cursor.value + 1
    && (c.deploymentBlock <= s.cursor.value ==>
          s.cursor.value < |n.chain| && Lookup(s.hashes, s.cursor.value) == Some(n.chain[s.cursor.value].hash))
  }

  lemma ResumedRun(s: Store, c: Config, n: Network, budget: nat)
    requires c.batchSize > 0 && Resumes(s, c, n)
    ensures Sync(s, c, n, budget) ==
      if s.cursor.value + 1 > LatestBlock(n, c) then SyncResult(s, None)
      else Advance(s, n, c.batchSize, s.cursor.value + 1, LatestBlock(n, c), budget)
  {
    hide Exec, BatchStmts, LogOf, Advance;
    assert EnsureBaseState(s, c).store == s;
    assert CheckReorg(s, c, n.chain) == SyncResult(s, None);
  }

  /** A run over `n` has a next block to index. */
  predicate HasNext(s: Store, c: Config, n: Network) {
    Resumes(s, c, n) && s.cursor.value + 1 <= LatestBlock(n, c) && c.batchSize > 0
  }

  /** The last block of its first chunk. */
  function NextEnd(s: Store, c: Config, n: Network): (r: nat)
    requires HasNext(s, c, n)
    ensures s.cursor.value < r < |n.chain|
  {
    Min(s.cursor.value + c.batchSize, LatestBlock(n, c))
  }

  function NextChunk(s: Store, c: Config, n: Network): seq<Event>
    requires HasNext(s, c, n)
  {
    LogOf(n.chain, s.cursor.value + 1, NextEnd(s, c, n) + 1)
  }

  lemma {:induction false} AdvanceNeverGoesBack(s: Store, n: Network, batch: nat, from: nat, latest: int, budget: nat)
    requires batch > 0 && latest < |n.chain| && s.cursor.Some? && s.cursor.value < from
    ensures var r := Advance(s, n, batch, from, latest, budget); r.store.cursor.Some? && s.cursor.value <= r.store.cursor.value
    decreases latest - from
  {
    hide Exec, BatchStmts, LogOf;
    if budget != 0 && from <= latest {
      var to := Min(from + batch - 1, latest);
      var r := ApplyChunk(s, n, from, to);
      if r.error.None? { AdvanceNeverGoesBack(r.store, n, batch, to + 1, latest, budget - 1); }
    }
  }

  /**
    The exact condition for getting past the cursor: a run indexes the next block if and only if
    every forecast of its first chunk is stored with a decision recorded by the end of that chunk;
    otherwise it stops at once on the forecast foreign key and changes nothing.
  */
  lemma GetsPastIff(s: Store, c: Config, n: Network, budget: nat)
    requires HasNext(s, c, n) && budget > 0
    requires Sound(s.tables) && OrderedLog(NextChunk(s, c, n)) && Grounded(s.tables, NextChunk(s, c, n), n.head)
    ensures var r := Sync(s, c, n, budget);
      if AllVisible(s.tables, NextChunk(s, c, n), n.head)
      then r.store.cursor.Some? && r.store.cursor.value >= NextEnd(s, c, n)
      else r == SyncResult(s, Some(ChunkFailed(ForeignKey(KForecast))))
  {
    hide Exec, BatchStmts, LogOf, Sync, Sound, OrderedLog, Grounded, AllVisible, Project;
    ResumedRun(s, c, n, budget);
    ChunkOutcomeExact(s.tables, NextChunk(s, c, n), n.head);
    var to := NextEnd(s, c, n);
    var r := ApplyChunk(s, n, s.cursor.value + 1, to);
    if r.error.None? { AdvanceNeverGoesBack(r.store, n, c.batchSize, to + 1, LatestBlock(n, c), budget - 1); }
  }

  /** The base state is recorded, and the cursor is not before the deployment. */
  predicate Started(s: Store) {
    if s.deployment.None? then s.cursor.None? else s.cursor.Some? && s.deployment.value.1 <= s.cursor.value + 1
  }

  lemma {:induction false} AdvanceResumes(s: Store, c: Config, n: Network, budget: nat)
    requires c.batchSize > 0 && Resumes(s, c, n)
    requires LatestBlock(n, c) < |n.chain|
    ensures var r := Advance(s, n, c.batchSize, s.cursor.value + 1, LatestBlock(n, c), budget);
      Resumes(r.store, c, n) && (r.error.Some? ==> HasNext(r.store, c, n))
    decreases LatestBlock(n, c) - s.cursor.value
  {
    hide Exec, BatchStmts, LogOf;
    var from, latest := s.cursor.value + 1, LatestBlock(n, c);
    if budget != 0 && from <= latest {
      var r := ApplyChunk(s, n, from, Min(from + c.batchSize - 1, latest));
      if r.error.None? { AdvanceResumes(r.store, c, n, budget - 1); }
    }
  }

  /** A run that stops on a chunk leaves a store from which the next run goes on at that chunk. */
  lemma FailedRunResumes(s: Store, c: Config, n: Network, budget: nat)
    requires c.batchSize > 0 && Started(s)
    ensures var r := Sync(s, c, n, budget);
      Started(r.store) && (r.error.Some? && r.error.value.ChunkFailed? ==> HasNext(r.store, c, n))
  {
    hide Advance;
    var base := EnsureBaseState(s, c);
    if base.error.None? {
      var checked := CheckReorg(base.store, c, n.chain);
      if checked.error.None? && FromBlock(checked.store, c) <= LatestBlock(n, c) { AdvanceResumes(checked.store, c, n, budget); }
    }
  }

  lemma FreshStarted()
    ensures Started(FreshStore)
  {
  }

  lemma {:induction false} RunsStarted(attempts: seq<Attempt>)
    requires forall i :: 0 <= i < |attempts| ==> attempts[i].config.batchSize > 0
    ensures Started(Runs(FreshStore, attempts))
  {
    hide Sync, Started;
    if attempts == [] {
      FreshStarted();
    } else {
      var init, a := attempts[..|attempts| - 1], attempts[|attempts| - 1];
      RunsStarted(init);
      FailedRunResumes(Runs(FreshStore, init), a.config, a.network, a.budget);
    }
  }

  // ----- stopped for good -----

  /** Forecast `f` stops the first chunk: it is touched there without its decision. */
  predicate Stops(s: Store, c: Config, n: Network, f: Id)
    requires HasNext(s, c, n)
  {
    f in TouchedForecasts(NextChunk(s, c, n)) && !Visible(s.tables, NextChunk(s, c, n), n.head, f)
  }

  /**
    A later attempt: any configuration of the same deployment and batch size, any chain with the
    same blocks up to `end`, however long, and any head that reports the same decision for `f`.
  */
  ghost predicate LaterAttempt(s: Store, c: Config, n: Network, f: Id, a: Attempt)
    requires HasNext(s, c, n)
  {
    var end, m := NextEnd(s, c, n), a.network;
    && a.config == c
    && end <= LatestBlock(m, c) && end < |m.chain| && m.chain[..end + 1] == n.chain[..end + 1]
    && StoredDecision(s.tables, m.head, f) == StoredDecision(s.tables, n.head, f)
    && Grounded(s.tables, NextChunk(s, c, n), m.head)
  }

  /** A full chunk is the same chunk on every longer chain. */
  lemma SameChunk(s: Store, c: Config, n: Network, f: Id, a: Attempt)
    requires HasNext(s, c, n) && LaterAttempt(s, c, n, f, a) && s.cursor.value + c.batchSize <= LatestBlock(n, c)
    ensures HasNext(s, c, a.network) && NextEnd(s, c, a.network) == NextEnd(s, c, n)
    ensures NextChunk(s, c, a.network) == NextChunk(s, c, n)
  {
    hide LogOf, Grounded, StoredDecision;
    var end, m := NextEnd(s, c, n), a.network;
    LogOfPrefix(m.chain, n.chain, s.cursor.value + 1, end + 1);
    assert m.chain[s.cursor.value] == m.chain[..end + 1][s.cursor.value] == n.chain[s.cursor.value];
  }

  /**
    A full chunk that a forecast stops is never passed: whatever blocks follow, whatever the head
    reports besides and however often the run is repeated, the store stays as it is. The decision
    lies in a later block, and no later block is ever reached.
  */
  lemma {:induction false} StuckForever(s: Store, c: Config, n: Network, f: Id, attempts: seq<Attempt>)
    requires HasNext(s, c, n) && s.cursor.value + c.batchSize <= LatestBlock(n, c)
    requires Sound(s.tables) && OrderedLog(NextChunk(s, c, n)) && Stops(s, c, n, f)
    requires forall i :: 0 <= i < |attempts| ==> LaterAttempt(s, c, n, f, attempts[i])
    ensures forall i :: 0 <= i < |attempts| ==> attempts[i].config.batchSize > 0
    ensures Runs(s, attempts) == s
    ensures forall i :: 0 <= i < |attempts| && attempts[i].budget > 0 ==>
      Sync(s, c, attempts[i].network, attempts[i].budget).error == Some(ChunkFailed(ForeignKey(KForecast)))
  {
    hide Sync, Sound, LogOf, Grounded, TouchedForecasts, StoredDecision, RecordedIn, HasNext, NextChunk, NextEnd, OrderedLog;
    forall i | 0 <= i < |attempts|
      ensures attempts[i].config == c && c.batchSize > 0
      ensures Sync(s, c, attempts[i].network, attempts[i].budget).store == s
      ensures attempts[i].budget > 0 ==>
        Sync(s, c, attempts[i].network, attempts[i].budget).error == Some(ChunkFailed(ForeignKey(KForecast)))
    {
      StopsAgain(s, c, n, f, attempts[i]);
    }
    if attempts != [] {
      StuckForever(s, c, n, f, attempts[..|attempts| - 1]);
    }
  }

  lemma StopsAgain(s: Store, c: Config, n: Network, f: Id, a: Attempt)
    requires HasNext(s, c, n) && s.cursor.value + c.batchSize <= LatestBlock(n, c)
    requires Sound(s.tables) && OrderedLog(NextChunk(s, c, n)) && Stops(s, c, n, f)
    requires LaterAttempt(s, c, n, f, a)
    ensures a.config == c && c.batchSize > 0
    ensures Sync(s, c, a.network, a.budget).store == s
    ensures a.budget > 0 ==> Sync(s, c, a.network, a.budget).error == Some(ChunkFailed(ForeignKey(KForecast)))
  {
    hide Sound, LogOf, Grounded, TouchedForecasts, StoredDecision, RecordedIn, OrderedLog, Sync, ApplyChunk;
    SameChunk(s, c, n, f, a);
    assert !Visible(s.tables, NextChunk(s, c, a.network), a.network.head, f);
    if a.budget > 0 { GetsPastIff(s, c, a.network, a.budget); } else { ResumedRun(s, c, a.network, 0); }
  }
}
