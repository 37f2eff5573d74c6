/**
  How far a run gets (src/indexer/projector.ts, `syncReadModel`, and `ensureReadModelBaseState` of
  src/indexer/store.ts): from any database, with any chain, in terms of block numbers.
*/
module SyncFrontier {
  import opened Common
  import opened ReadModel
  import opened SyncRuns

  /** The cursor with which a run starts: a new database stands just before the deployment block. */
  function Cursor(s: Store, c: Config): nat {
    if s.cursor.Some? then s.cursor.value else if c.deploymentBlock == 0 then 0 else c.deploymentBlock - 1
  }

  /** The first block that a run may index. */
  function Next(s: Store, c: Config): nat {
    if Cursor(s, c) + 1 >= c.deploymentBlock then Cursor(s, c) + 1 else c.deploymentBlock
  }

  /** The cursor's block is on the chain and its hash is the stored one. */
  predicate Sealed(s: Store, chain: seq<Block>) {
    s.cursor.Some? && s.cursor.value < |chain| && s.cursor.value in s.hashes && s.hashes[s.cursor.value] == chain[s.cursor.value].hash
  }

  lemma ChunkSeals(s: Store, n: Network, from: nat, to: nat)
    requires to < |n.chain|
    ensures var r := ApplyChunk(s, n, from, to);
      if r.error.Some? then r.store == s
      else r.store.cursor == Some(to) && Sealed(r.store, n.chain) && r.store.deployment == s.deployment
  {
    hide Exec;
  }

  lemma Product(budget: nat, batch: nat)
    requires budget > 0
    ensures budget * batch == batch + (budget - 1) * batch && (budget - 1) * batch >= 0
  {
  }

  /** The loop over the chunks: how far it gets. */
  lemma {:induction false} AdvanceReaches(s: Store, n: Network, batch: nat, from: nat, latest: int, budget: nat)
    requires batch > 0 && latest < |n.chain|
    ensures var r := Advance(s, n, batch, from, latest, budget);
      && r.store.deployment == s.deployment
      && (r.store == s || (Sealed(r.store, n.chain) && from <= r.store.cursor.value <= latest))
      && (budget == 0 || from > latest ==> r.error.None? && r.store == s)
      && (r.error.None? && budget > 0 && from <= latest ==>
            Sealed(r.store, n.chain) && r.store.cursor.value == Min(from - 1 + budget * batch, latest))
    decreases latest - from
  {
    hide ApplyChunk;
    if budget > 0 && from <= latest {
      var to := Min(from + batch - 1, latest);
      ChunkSeals(s, n, from, to);
      Product(budget, batch);
      var r := ApplyChunk(s, n, from, to);
      if r.error.None? { AdvanceReaches(r.store, n, batch, to + 1, latest, budget - 1); }
    }
  }

  /**
    A run is refused for its configuration exactly when another one is recorded, and then nothing
    changes; every other run leaves its configuration recorded.
  */
  lemma ConfigurationRefused(s: Store, c: Config, n: Network, budget: nat)
    requires c.batchSize > 0
    ensures var r := Sync(s, c, n, budget);
      var other := s.deployment.Some? && (s.deployment.value.0 != c.chainId || s.deployment.value.1 != c.deploymentBlock);
      && (r.error == Some(DeploymentMismatch) <==> other)
      && r.store.deployment == (if other then s.deployment else Some((c.chainId, c.deploymentBlock)))
      && (other ==> r.store == s)
  {
    hide ApplyChunk, Advance;
    var base := EnsureBaseState(s, c);
    if base.error.None? {
      var checked := CheckReorg(base.store, c, n.chain);
      if checked.error.None? {
        var from, latest := FromBlock(checked.store, c), LatestBlock(n, c);
        if from <= latest {
          AdvanceReaches(checked.store, n, c.batchSize, from, latest, budget);
          AdvanceErrors(checked.store, n, c.batchSize, from, latest, budget);
        }
      }
    }
  }

  /** The first run decides the configuration for good. */
  lemma {:induction false} FirstRunDecides(attempts: seq<Attempt>)
    requires |attempts| > 0 && forall i :: 0 <= i < |attempts| ==> attempts[i].config.batchSize > 0
    ensures Runs(FreshStore, attempts).deployment == Some((attempts[0].config.chainId, attempts[0].config.deploymentBlock))
  {
    hide Sync;
    var init, a := attempts[..|attempts| - 1], attempts[|attempts| - 1];
    if |init| > 0 { FirstRunDecides(init); } else { NoRuns(init); }
    ConfigurationRefused(Runs(FreshStore, init), a.config, a.network, a.budget);
  }

  lemma NoRuns(attempts: seq<Attempt>)
    requires |attempts| == 0
    ensures Runs(FreshStore, attempts) == FreshStore
  {
  }

  /**
    How far a run gets. The cursor never goes back and only ever rests on a block with the
    configured number of blocks above it. A run without an error, of so many transactions, ends
    exactly that many batches on, or at the last such block; if it indexed anything, or had
    indexed anything before, the cursor's hash is on record.
  */
  lemma RunReaches(s: Store, c: Config, n: Network, budget: nat)
    requires c.batchSize > 0
    ensures var r, start, next := Sync(s, c, n, budget), Cursor(s, c), Next(s, c);
      r.error != Some(DeploymentMismatch) ==>
        && r.store.cursor.Some? && r.store.cursor.value >= start
        && (r.store.cursor.value > start ==> r.store.cursor.value + n.confirmations < |n.chain|)
        && (r.error.None? ==>
              && r.store.cursor.value == (if budget == 0 || next + n.confirmations >= |n.chain| then start
                                          else Min(next - 1 + budget * c.batchSize, |n.chain| - 1 - n.confirmations))
              && (r.store.cursor.value >= c.deploymentBlock ==> Sealed(r.store, n.chain)))
  {
    hide ApplyChunk, Advance;
    var base := EnsureBaseState(s, c);
    if base.error.None? {
      assert base.store.cursor == Some(Cursor(s, c));
      var checked := CheckReorg(base.store, c, n.chain);
      assert checked.store.cursor == base.store.cursor;
      if checked.error.None? {
        assert Cursor(s, c) >= c.deploymentBlock ==> Sealed(checked.store, n.chain);
        var from, latest := FromBlock(checked.store, c), LatestBlock(n, c);
        assert from == Next(s, c);
        if from <= latest { AdvanceReaches(checked.store, n, c.batchSize, from, latest, budget); }
      }
    }
  }

  /** So a run with enough transactions and without an error leaves no confirmed block out. */
  lemma NothingConfirmedLeft(s: Store, c: Config, n: Network, budget: nat, block: nat)
    requires c.batchSize > 0 && budget >= |n.chain| && Sync(s, c, n, budget).error.None?
    requires Next(s, c) <= block && block + n.confirmations < |n.chain|
    ensures Sync(s, c, n, budget).store.cursor.Some? && block <= Sync(s, c, n, budget).store.cursor.value
  {
    hide Sync;
    RunReaches(s, c, n, budget);
    AtLeastBudget(budget, c.batchSize);
  }

  lemma AtLeastBudget(budget: nat, batch: nat)
    requires batch > 0
    ensures budget * batch >= budget
  {
  }
}
