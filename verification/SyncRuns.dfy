/**
  Sync runs (src/indexer/projector.ts, `syncReadModel`): cursor, reorg check and chunk loop, over
  any number of runs, each of which may crash between transactions and may see another chain.
*/
module SyncRuns {
  import opened Common
  import opened ReadModel
  import opened Projector
  import opened LogColumns

  /** A block hash, already in lower case. */
  type Hash = nat

  datatype Block = Block(hash: Hash, parent: Hash, events: seq<Event>)

  /** What a run sees of the network: block `n` is `chain[n]`, and the contract reads. */
  datatype Network = Network(chain: seq<Block>, head: Head, confirmations: nat)

  datatype Config = Config(chainId: nat, deploymentBlock: nat, batchSize: nat)

  datatype Store = Store(
    tables: Tables,
    cursor: Option<nat>,               // indexer_state.last_processed_block
    hashes: map<nat, Hash>,            // indexer_block_checkpoints
    deployment: Option<(nat, nat)>)    // metadata: chainId, deploymentBlock

  datatype SyncError =
    | DeploymentMismatch
    | UnreadableBlock(block: nat)
    | ReorgDetected(block: nat, stored: Hash, canonical: Hash)
    | ChunkFailed(error: StmtError)

  datatype SyncResult = SyncResult(store: Store, error: Option<SyncError>)

  const FreshStore := Store(EmptyTables, None, map[], None)

  /** The events of blocks `lo` up to, but not including, `hi`. */
  function LogOf(chain: seq<Block>, lo: nat, hi: nat): seq<Event>
    requires hi <= |chain|
  {
    if hi <= lo then [] else LogOf(chain, lo, hi - 1) + chain[hi - 1].events
  }

  /** `ensureReadModelBaseState`. */
  function EnsureBaseState(s: Store, c: Config): SyncResult {
    if s.deployment.Some? && s.deployment.value != (c.chainId, c.deploymentBlock)
    then SyncResult(s, Some(DeploymentMismatch))
    else
      var first := if s.cursor.Some? then s.cursor else Some(Max(0, c.deploymentBlock - 1));
      SyncResult(s.(deployment := Some((c.chainId, c.deploymentBlock)), cursor := first), None)
  }

  /** The comparison of the cursor's stored block hash with the chain. */
  function CheckReorg(s: Store, c: Config, chain: seq<Block>): SyncResult {
    if s.cursor.None? || s.cursor.value < c.deploymentBlock then SyncResult(s, None)
    else
      var at := s.cursor.value;
      if at >= |chain| then SyncResult(s, Some(UnreadableBlock(at)))
      else if at !in s.hashes then SyncResult(s.(hashes := s.hashes[at := chain[at].hash]), None)
      else if s.hashes[at] != chain[at].hash
      then SyncResult(s, Some(ReorgDetected(at, s.hashes[at], chain[at].hash)))
      else SyncResult(s, None)
  }

  /** `applyChunk`: tables, cursor and block hash commit together or not at all. */
  function ApplyChunk(s: Store, n: Network, from: nat, to: nat): SyncResult
    requires to < |n.chain|
  {
    match Exec(s.tables, BatchStmts(LogOf(n.chain, from, to + 1), n.head))
    case Failed(e) => SyncResult(s, Some(ChunkFailed(e)))
    case Done(t) =>
      SyncResult(s.(tables := t, cursor := Some(to), hashes := s.hashes[to := n.chain[to].hash]), None)
  }

  /** The chunk loop; the process lives for at most `budget` transactions. */
  function Advance(s: Store, n: Network, batch: nat, from: nat, latest: int, budget: nat): SyncResult
    requires batch > 0 && latest < |n.chain|
    decreases latest - from
  {
    if budget == 0 || from > latest then SyncResult(s, None)
    else
      var to := Min(from + batch - 1, latest);
      var r := ApplyChunk(s, n, from, to);
      if r.error.Some? then r else Advance(r.store, n, batch, to + 1, latest, budget - 1)
  }

  function LatestBlock(n: Network, c: Config): int {
    Max(c.deploymentBlock - 1, |n.chain| - 1 - n.confirmations)
  }

  function FromBlock(s: Store, c: Config): nat {
    Max(c.deploymentBlock, (if s.cursor.Some? then s.cursor.value else c.deploymentBlock - 1) + 1)
  }

  /** One run. */
  function Sync(s: Store, c: Config, n: Network, budget: nat): SyncResult
    requires c.batchSize > 0
  {
    var base := EnsureBaseState(s, c);
    if base.error.Some? then base
    else
      var checked := CheckReorg(base.store, c, n.chain);
      if checked.error.Some? then checked
      else
        var from, latest := FromBlock(checked.store, c), LatestBlock(n, c);
        if from > latest then checked
        else Advance(checked.store, n, c.batchSize, from, latest, budget)
  }

  datatype Attempt = Attempt(config: Config, network: Network, budget: nat)

  /** Any number of runs, one after the other. */
  ghost function Runs(s: Store, attempts: seq<Attempt>): Store
    requires forall i :: 0 <= i < |attempts| ==> attempts[i].config.batchSize > 0
  {
    if |attempts| == 0 then s
    else
      var a := attempts[|attempts| - 1];
      Sync(Runs(s, attempts[..|attempts| - 1]), a.config, a.network, a.budget).store
  }

  // ----- chains -----

  /** A hash determines the block: its parent and its events. */
  ghost predicate Authentic(chain: seq<Block>, content: Hash -> (Hash, seq<Event>)) {
    forall i :: 0 <= i < |chain| ==> content(chain[i].hash) == (chain[i].parent, chain[i].events)
  }

  ghost predicate Linked(chain: seq<Block>) {
    forall i {:trigger chain[i].parent} :: 0 < i < |chain| ==> chain[i].parent == chain[i - 1].hash
  }

  /** A chain that exists, with a log that its contracts can emit. */
  ghost predicate Canonical(chain: seq<Block>, content: Hash -> (Hash, seq<Event>)) {
    Authentic(chain, content) && Linked(chain) && OrderedLog(LogOf(chain, 0, |chain|))
  }

  /** Two chains with the same hash at block `n` share every block up to it. */
  lemma {:induction false} SharedPrefix(a: seq<Block>, b: seq<Block>, content: Hash -> (Hash, seq<Event>), n: nat)
    requires Authentic(a, content) && Authentic(b, content) && Linked(a) && Linked(b)
    requires n < |a| && n < |b| && a[n].hash == b[n].hash
    ensures a[..n + 1] == b[..n + 1]
  {
    assert content(a[n].hash) == content(b[n].hash);
    if n > 0 {
      assert a[n].parent == a[n - 1].hash && b[n].parent == b[n - 1].hash;
      SharedPrefix(a, b, content, n - 1);
      assert a[..n + 1] == a[..n] + [a[n]] && b[..n + 1] == b[..n] + [b[n]];
    }
  }

  lemma {:induction false} LogOfPrefix(a: seq<Block>, b: seq<Block>, lo: nat, hi: nat)
    requires hi <= |a| && hi <= |b| && a[..hi] == b[..hi]
    ensures LogOf(a, lo, hi) == LogOf(b, lo, hi)
  {
    if lo < hi {
      assert a[..hi - 1] == a[..hi][..hi - 1] && b[..hi - 1] == b[..hi][..hi - 1];
      assert a[hi - 1] == a[..hi][hi - 1] && b[hi - 1] == b[..hi][hi - 1];
      LogOfPrefix(a, b, lo, hi - 1);
    }
  }

  lemma {:induction false} LogOfConcat(chain: seq<Block>, lo: nat, mid: nat, hi: nat)
    requires lo <= mid <= hi <= |chain|
    ensures LogOf(chain, lo, hi) == LogOf(chain, lo, mid) + LogOf(chain, mid, hi)
  {
    if mid < hi { LogOfConcat(chain, lo, mid, hi - 1); }
  }

  lemma OrderedSlice(chain: seq<Block>, lo: nat, hi: nat)
    requires lo <= hi <= |chain| && OrderedLog(LogOf(chain, 0, |chain|))
    ensures OrderedLog(LogOf(chain, lo, hi))
  {
    hide EventClash;
    var log, front, part := LogOf(chain, 0, |chain|), LogOf(chain, 0, lo), LogOf(chain, lo, hi);
    LogOfConcat(chain, 0, hi, |chain|);
    LogOfConcat(chain, 0, lo, hi);
    forall i, j | 0 <= i < j < |part| ensures !EventClash(part[i], part[j]) {
      assert log[|front| + i] == part[i] && log[|front| + j] == part[j];
    }
  }

  lemma {:induction false} ExecIsEffects(t: Tables, ss: seq<Stmt>)
    requires Exec(t, ss).Done?
    ensures Exec(t, ss).tables == Effects(t, ss)
  {
    hide Check, Effect;
    if ss != [] { ExecIsEffects(t, ss[..|ss| - 1]); }
  }

  // ----- what a run commits -----

  /** The first block whose events are indexed: block 0 never is. */
  function FirstBlock(deploymentBlock: nat): nat {
    Max(1, deploymentBlock)
  }

  /**
    `s` holds exactly the events of blocks `first` up to the cursor of `chain`, event `i` under
    head `hs[i]`, and the hash of the cursor's block.
  */
  ghost predicate HoldsChain(s: Store, first: nat, chain: seq<Block>, hs: seq<Head>) {
    && s.cursor.Some? && first <= s.cursor.value + 1
    && if s.cursor.value < first then |hs| == 0 && s.tables == EmptyTables
       else
         && s.cursor.value < |chain|
         && |hs| == |LogOf(chain, first, s.cursor.value + 1)|
         && s.tables == ProjectUnder(EmptyTables, LogOf(chain, first, s.cursor.value + 1), hs)
         && Lookup(s.hashes, s.cursor.value) == Some(chain[s.cursor.value].hash)
  }

  lemma ChunkProjects(t: Tables, n: Network, from: nat, to: nat)
    requires OrderedLog(LogOf(n.chain, 0, |n.chain|)) && from <= to < |n.chain|
    ensures var es := LogOf(n.chain, from, to + 1);
      Exec(t, BatchStmts(es, n.head)).Done? ==> Exec(t, BatchStmts(es, n.head)).tables == Project(t, es, n.head)
  {
    hide Exec, Effects, OrderedLog, BatchStmts, LogOf, Project;
    var es := LogOf(n.chain, from, to + 1);
    OrderedSlice(n.chain, from, to + 1);
    BatchIsProjection(t, es, n.head);
    if Exec(t, BatchStmts(es, n.head)).Done? { ExecIsEffects(t, BatchStmts(es, n.head)); }
  }

  /** A committed chunk extends the indexed prefix by exactly its blocks. */
  lemma ChunkExtends(s: Store, n: Network, first: nat, hs: seq<Head>, to: nat) returns (hs': seq<Head>)
    requires HoldsChain(s, first, n.chain, hs) && OrderedLog(LogOf(n.chain, 0, |n.chain|))
    requires s.cursor.value < to < |n.chain|
    ensures var r := ApplyChunk(s, n, s.cursor.value + 1, to);
      if r.error.Some? then r.store == s
      else HoldsChain(r.store, first, n.chain, hs') && r.store.cursor == Some(to) && r.store.deployment == s.deployment
    ensures forall h :: h in hs' ==> h in hs || h == n.head
  {
    hide Exec, OrderedLog, BatchStmts, LogOf, Project, ProjectUnder;
    var from := s.cursor.value + 1;
    var es := LogOf(n.chain, from, to + 1);
    if s.cursor.value < first { NoLog(n.chain, first, hs); }
    hs' := hs + Repeat(n.head, |es|);
    LogOfConcat(n.chain, first, from, to + 1);
    ProjectUnderMore(EmptyTables, LogOf(n.chain, first, from), hs, es, n.head);
    ChunkProjects(s.tables, n, from, to);
  }

  lemma {:induction false} AdvanceExtends(s: Store, n: Network, batch: nat, latest: int, budget: nat, first: nat, hs: seq<Head>)
      returns (hs': seq<Head>)
    requires batch > 0 && latest < |n.chain| && OrderedLog(LogOf(n.chain, 0, |n.chain|))
    requires HoldsChain(s, first, n.chain, hs)
    ensures var r := Advance(s, n, batch, s.cursor.value + 1, latest, budget);
      HoldsChain(r.store, first, n.chain, hs') && r.store.deployment == s.deployment
    ensures forall h :: h in hs' ==> h in hs || h == n.head
    decreases latest - s.cursor.value
  {
    hide HoldsChain, OrderedLog, LogOf, ApplyChunk;
    assert s.cursor.Some? by { SeesCursor(s, first, n.chain, hs); }
    var from := s.cursor.value + 1;
    if budget == 0 || from > latest { return hs; }
    var to := Min(from + batch - 1, latest);
    hs' := ChunkExtends(s, n, first, hs, to);
    var r := ApplyChunk(s, n, from, to);
    if r.error.Some? { return hs; }
    hs' := AdvanceExtends(r.store, n, batch, latest, budget - 1, first, hs');
  }

  lemma NoLog(chain: seq<Block>, first: nat, hs: seq<Head>)
    requires first <= |chain| && |hs| == 0
    ensures LogOf(chain, first, first) == [] && ProjectUnder(EmptyTables, LogOf(chain, first, first), hs) == EmptyTables
  {
  }

  lemma SeesCursor(s: Store, first: nat, chain: seq<Block>, hs: seq<Head>)
    requires HoldsChain(s, first, chain, hs)
    ensures s.cursor.Some?
  {
  }

  // ----- every sequence of runs -----

  /** Every head in `hs` is the one that some attempt read. */
  ghost predicate HeadsSeen(hs: seq<Head>, attempts: seq<Attempt>) {
    forall h :: h in hs ==> exists j :: 0 <= j < |attempts| && attempts[j].network.head == h
  }

  /** `s` holds the chain that attempt `i` saw, up to the cursor. */
  ghost predicate HoldsSeen(s: Store, attempts: seq<Attempt>, i: nat, hs: seq<Head>)
    requires i < |attempts| && s.deployment.Some?
  {
    HoldsChain(s, FirstBlock(s.deployment.value.1), attempts[i].network.chain, hs) && HeadsSeen(hs, attempts)
  }

  ghost predicate Faithful(s: Store, attempts: seq<Attempt>) {
    if s.deployment.None? then s == FreshStore
    else exists i: nat, hs :: i < |attempts| && HoldsSeen(s, attempts, i, hs)
  }

  ghost predicate AllCanonical(attempts: seq<Attempt>, content: Hash -> (Hash, seq<Event>)) {
    forall i :: 0 <= i < |attempts| ==> attempts[i].config.batchSize > 0 && Canonical(attempts[i].network.chain, content)
  }

  /** The indexed blocks carry over to any chain that has the same block at the cursor. */
  lemma HoldsOtherChain(s: Store, first: nat, a: seq<Block>, b: seq<Block>, hs: seq<Head>, content: Hash -> (Hash, seq<Event>))
    requires HoldsChain(s, first, a, hs) && Canonical(a, content) && Canonical(b, content)
    requires s.cursor.value >= first ==> s.cursor.value < |b| && a[s.cursor.value].hash == b[s.cursor.value].hash
    ensures HoldsChain(s, first, b, hs)
    ensures s.cursor.value >= first ==> a[..s.cursor.value + 1] == b[..s.cursor.value + 1]
  {
    hide OrderedLog, ProjectUnder, LogOf;
    if s.cursor.value >= first {
      SharedPrefix(a, b, content, s.cursor.value);
      LogOfPrefix(a, b, first, s.cursor.value + 1);
    }
  }

  /** The state in which a run that passes its checks starts the chunk loop. */
  lemma ChecksPassed(s: Store, attempts: seq<Attempt>, a: Attempt, content: Hash -> (Hash, seq<Event>)) returns (hs: seq<Head>)
    requires Faithful(s, attempts) && AllCanonical(attempts, content) && Canonical(a.network.chain, content)
    ensures var c, n := a.config, a.network;
      var base := EnsureBaseState(s, c);
      base.error.None? ==>
        var r := CheckReorg(base.store, c, n.chain);
        r.store.deployment == Some((c.chainId, c.deploymentBlock)) && Faithful(r.store, attempts + [a]) &&
        (r.error.None? ==> HoldsChain(r.store, FirstBlock(c.deploymentBlock), n.chain, hs) && HeadsSeen(hs, attempts)
                           && FromBlock(r.store, c) == r.store.cursor.value + 1)
  {
    hide OrderedLog, ProjectUnder, LogOf, Canonical;
    var c, n, all := a.config, a.network, attempts + [a];
    var first := FirstBlock(c.deploymentBlock);
    hs := [];
    if s.deployment.None? {
      assert HoldsChain(EnsureBaseState(s, c).store, first, n.chain, hs);
      var r := CheckReorg(EnsureBaseState(s, c).store, c, n.chain);
      assert HoldsChain(r.store, first, n.chain, hs);
      assert all[|attempts|] == a;
      assert HoldsSeen(r.store, all, |attempts|, hs);
    } else if EnsureBaseState(s, c).error.None? {
      var i: nat, ks :| i < |attempts| && HoldsSeen(s, attempts, i, ks);
      var chain := attempts[i].network.chain;
      assert EnsureBaseState(s, c).store == s;
      var r := CheckReorg(s, c, n.chain);
      assert HoldsChain(r.store, first, chain, ks);
      hs := ks;
      MoreHeads(ks, attempts, a);
      assert all[i] == attempts[i];
      assert HoldsSeen(r.store, all, i, ks);
      if r.error.None? { HoldsOtherChain(r.store, first, chain, n.chain, ks, content); }
    }
  }

  lemma MoreHeads(hs: seq<Head>, attempts: seq<Attempt>, a: Attempt)
    requires HeadsSeen(hs, attempts)
    ensures HeadsSeen(hs, attempts + [a])
  {
    forall h | h in hs ensures exists j :: 0 <= j < |attempts + [a]| && (attempts + [a])[j].network.head == h {
      var j :| 0 <= j < |attempts| && attempts[j].network.head == h;
      assert (attempts + [a])[j] == attempts[j];
    }
  }

  lemma OwnHead(hs: seq<Head>, ks: seq<Head>, attempts: seq<Attempt>, a: Attempt)
    requires HeadsSeen(hs, attempts) && forall h :: h in ks ==> h in hs || h == a.network.head
    ensures HeadsSeen(ks, attempts + [a])
  {
    MoreHeads(hs, attempts, a);
    assert (attempts + [a])[|attempts|] == a;
  }

  lemma SyncKeepsFaithful(s: Store, attempts: seq<Attempt>, a: Attempt, content: Hash -> (Hash, seq<Event>))
    requires Faithful(s, attempts) && AllCanonical(attempts, content)
    requires a.config.batchSize > 0 && Canonical(a.network.chain, content)
    ensures Faithful(Sync(s, a.config, a.network, a.budget).store, attempts + [a])
  {
    hide HoldsChain, OrderedLog, LogOf, ApplyChunk, CheckReorg, HeadsSeen, Canonical, AllCanonical;
    var c, n, all := a.config, a.network, attempts + [a];
    var base := EnsureBaseState(s, c);
    if base.error.Some? {
      StillFaithful(s, attempts, a);
    } else {
      var hs := ChecksPassed(s, attempts, a, content);
      var checked := CheckReorg(base.store, c, n.chain);
      if checked.error.None? && FromBlock(checked.store, c) <= LatestBlock(n, c) {
        assert OrderedLog(LogOf(n.chain, 0, |n.chain|)) by { CanonicalOrdered(n.chain, content); }
        var ks := AdvanceExtends(checked.store, n, c.batchSize, LatestBlock(n, c), a.budget, FirstBlock(c.deploymentBlock), hs);
        OwnHead(hs, ks, attempts, a);
        assert all[|attempts|] == a;
        assert HoldsSeen(Sync(s, c, n, a.budget).store, all, |attempts|, ks);
      }
    }
  }

  lemma CanonicalOrdered(chain: seq<Block>, content: Hash -> (Hash, seq<Event>))
    requires Canonical(chain, content)
    ensures OrderedLog(LogOf(chain, 0, |chain|))
  {
  }

  lemma StillFaithful(s: Store, attempts: seq<Attempt>, a: Attempt)
    requires Faithful(s, attempts)
    ensures Faithful(s, attempts + [a])
  {
    hide HoldsChain, HeadsSeen;
    if s.deployment.Some? {
      var i: nat, hs :| i < |attempts| && HoldsSeen(s, attempts, i, hs);
      MoreHeads(hs, attempts, a);
      assert (attempts + [a])[i] == attempts[i];
      assert HoldsSeen(s, attempts + [a], i, hs);
    }
  }

  /**
    Over every sequence of runs, crashes and chain replacements, from an empty database: the
    tables are the projection, under heads that the runs read, of the blocks that one of the runs
    saw, from the first block up to the cursor, with nothing missing, repeated or mixed in.
  */
  lemma {:induction false} RunsStayFaithful(attempts: seq<Attempt>, content: Hash -> (Hash, seq<Event>))
    requires AllCanonical(attempts, content)
    ensures forall i :: 0 <= i < |attempts| ==> attempts[i].config.batchSize > 0
    ensures Faithful(Runs(FreshStore, attempts), attempts)
  {
    hide Canonical, Sync, HoldsSeen;
    if |attempts| != 0 {
      var init, a := attempts[..|attempts| - 1], attempts[|attempts| - 1];
      RunsStayFaithful(init, content);
      SyncKeepsFaithful(Runs(FreshStore, init), init, a, content);
      assert init + [a] == attempts;
    }
  }

  /** So the log's columns equal the one-event-at-a-time projection of those blocks. */
  lemma RunsProjectTheLog(attempts: seq<Attempt>, content: Hash -> (Hash, seq<Event>), h: Head)
      returns (i: nat, hs: seq<Head>)
    requires AllCanonical(attempts, content)
    requires forall i :: 0 <= i < |attempts| ==> attempts[i].config.batchSize > 0
    requires Runs(FreshStore, attempts).deployment.Some?
    ensures var s := Runs(FreshStore, attempts);
      var first := FirstBlock(s.deployment.value.1);
      && i < |attempts| && HoldsSeen(s, attempts, i, hs)
      && (s.cursor.value >= first ==>
            var log := LogOf(attempts[i].network.chain, first, s.cursor.value + 1);
            Columns(s.tables, Project(EmptyTables, log, h), Marked(log)))
  {
    hide Canonical, Sync, ProjectUnder, LogOf, Columns, Runs, Project, Marked, HeadsSeen;
    var s := Runs(FreshStore, attempts);
    RunsStayFaithful(attempts, content);
    var first := FirstBlock(s.deployment.value.1);
    i, hs :| i < |attempts| && HoldsSeen(s, attempts, i, hs);
    if s.cursor.value >= first { LogColumnsAgree(EmptyTables, LogOf(attempts[i].network.chain, first, s.cursor.value + 1), hs, h); }
  }

  /**
    Chain replacement: a run is refused, with nothing changed, exactly when the chain it sees no
    longer contains the indexed blocks. The error names the block and both of its hashes.
  */
  lemma RefusedIffReplaced(s: Store, c: Config, n: Network, budget: nat, chain: seq<Block>, hs: seq<Head>, content: Hash -> (Hash, seq<Event>))
    requires c.batchSize > 0 && s.deployment == Some((c.chainId, c.deploymentBlock))
    requires Canonical(chain, content) && Canonical(n.chain, content)
    requires HoldsChain(s, FirstBlock(c.deploymentBlock), chain, hs) && s.cursor.value >= FirstBlock(c.deploymentBlock)
    ensures var r, at := Sync(s, c, n, budget), s.cursor.value;
      var refused := r.error.Some? && (r.error.value.UnreadableBlock? || r.error.value.ReorgDetected?);
      && (refused <==> !(at < |n.chain| && n.chain[..at + 1] == chain[..at + 1]))
      && (refused ==> r.store == s)
      && (refused ==> r.error == Some(if at < |n.chain| then ReorgDetected(at, chain[at].hash, n.chain[at].hash) else UnreadableBlock(at)))
  {
    hide OrderedLog, ProjectUnder, LogOf, ApplyChunk;
    var at := s.cursor.value;
    if at < |n.chain| {
      if n.chain[..at + 1] == chain[..at + 1] {
        assert n.chain[at] == n.chain[..at + 1][at] && chain[at] == chain[..at + 1][at];
      } else if n.chain[at].hash == chain[at].hash {
        SharedPrefix(chain, n.chain, content, at);
        assert false;
      }
      if n.chain[at].hash == chain[at].hash {
        AdvanceErrors(s, n, c.batchSize, FromBlock(s, c), LatestBlock(n, c), budget);
      }
    }
  }

  lemma {:induction false} AdvanceErrors(s: Store, n: Network, batch: nat, from: nat, latest: int, budget: nat)
    requires batch > 0 && latest < |n.chain|
    ensures var r := Advance(s, n, batch, from, latest, budget); r.error.Some? ==> r.error.value.ChunkFailed?
    decreases latest - from
  {
    hide Exec, BatchStmts, LogOf;
    if budget != 0 && from <= latest {
      var to := Min(from + batch - 1, latest);
      var r := ApplyChunk(s, n, from, to);
      if r.error.None? { AdvanceErrors(r.store, n, batch, to + 1, latest, budget - 1); }
    }
  }

  /** With deployment block 0 the first run starts at block 1, so block 0 is left out. */
  lemma GapFreeIff(chain: seq<Block>, deploymentBlock: nat, hi: nat)
    requires 0 < hi <= |chain|
    ensures LogOf(chain, deploymentBlock, hi) == LogOf(chain, FirstBlock(deploymentBlock), hi)
            <==> deploymentBlock >= 1 || chain[0].events == []
  {
    if deploymentBlock == 0 {
      LogOfConcat(chain, 0, 1, hi);
      assert LogOf(chain, 0, 1) == LogOf(chain, 0, 0) + chain[0].events;
    }
  }

  const GENESIS_CLAIM := ClaimCreated(1, "author", 0, "metadata", "module", 0)
  const GENESIS_CHAIN := [Block(100, 0, [GENESIS_CLAIM])]

  /** A first run whose chain has an event in block 0: it ends without an error at cursor 0, and the event is not indexed. */
  lemma GenesisSkipped(head: Head)
    ensures LogOf(GENESIS_CHAIN, 0, 1) == [GENESIS_CLAIM] && LogOf(GENESIS_CHAIN, FirstBlock(0), 1) == []
    ensures var r := Sync(FreshStore, Config(1, 0, 1), Network(GENESIS_CHAIN, head, 0), 1);
      r.error.None? && r.store.cursor == Some(0) && r.store.tables == EmptyTables
  {
    hide Exec, BatchStmts;
    assert LogOf(GENESIS_CHAIN, 0, 0) == [];
  }
}
