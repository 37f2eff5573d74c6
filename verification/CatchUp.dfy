/**
  Catching up: whether a run over many chunks commits, and what it leaves, for every batch size.

  The tables never depend on the batch size. Whether the run gets there does: a forecast is
  stored with the resolution decision that the head already reports, and the foreign key demands
  that decision by the end of the chunk that touches the forecast.
*/
module CatchUp {
  import opened Common
  import opened ReadModel
  import opened NormalForm
  import opened Projector
  import opened ChunkOutcome
  import opened SyncRuns

  // ----- the result does not depend on the batch size -----

  lemma {:induction false} AdvanceProjects(s: Store, n: Network, batch: nat, from: nat, latest: int, budget: nat)
    requires batch > 0 && latest < |n.chain| && OrderedLog(LogOf(n.chain, 0, |n.chain|))
    requires from <= latest && budget > latest - from
    ensures var r := Advance(s, n, batch, from, latest, budget);
      r.error.None? ==> r.store.tables == Project(s.tables, LogOf(n.chain, from, latest + 1), n.head)
                        && r.store.cursor == Some(latest)
    decreases latest - from
  {
    hide Exec, BatchStmts, LogOf, Project, Effects, OrderedLog;
    var to := Min(from + batch - 1, latest);
    var es, r := LogOf(n.chain, from, to + 1), ApplyChunk(s, n, from, to);
    if r.error.None? {
      OrderedSlice(n.chain, from, to + 1);
      BatchIsProjection(s.tables, es, n.head);
      ExecIsEffects(s.tables, BatchStmts(es, n.head));
      if to < latest {
        AdvanceProjects(r.store, n, batch, to + 1, latest, budget - 1);
        LogOfConcat(n.chain, from, to + 1, latest + 1);
        ProjectConcat(s.tables, es, LogOf(n.chain, to + 1, latest + 1), n.head);
      }
    }
  }

  /** `u` is `s` with the log from the cursor to the latest block applied one event at a time. */
  predicate ProjectsLog(s: Store, c: Config, n: Network, u: Store) {
    var from, latest := FromBlock(EnsureBaseState(s, c).store, c), LatestBlock(n, c);
    if from <= latest
    then latest < |n.chain| && u.tables == Project(s.tables, LogOf(n.chain, from, latest + 1), n.head) && u.cursor == Some(latest)
    else u.tables == s.tables
  }

  /**
    Batch-size independence: runs over the same network that differ only in their batch size and
    finish without an error leave the same tables and the same cursor, and those tables are the
    log applied one event at a time.
  */
  lemma BatchSizeIndependence(s: Store, c: Config, d: Config, n: Network, budget: nat)
    requires c.batchSize > 0 && d.batchSize > 0 && c.(batchSize := d.batchSize) == d
    requires OrderedLog(LogOf(n.chain, 0, |n.chain|)) && budget >= |n.chain|
    ensures var x, y := Sync(s, c, n, budget), Sync(s, d, n, budget);
      x.error.None? && y.error.None? ==>
        x.store.tables == y.store.tables && x.store.cursor == y.store.cursor && ProjectsLog(s, c, n, x.store)
  {
    hide LogOf, ApplyChunk, Project, OrderedLog, Advance;
    var base := EnsureBaseState(s, c);
    assert EnsureBaseState(s, d) == base;
    if base.error.None? {
      var checked := CheckReorg(base.store, c, n.chain);
      assert CheckReorg(base.store, d, n.chain) == checked;
      var from, latest := FromBlock(checked.store, c), LatestBlock(n, c);
      if checked.error.None? && from <= latest {
        AdvanceProjects(checked.store, n, c.batchSize, from, latest, budget);
        AdvanceProjects(checked.store, n, d.batchSize, from, latest, budget);
      }
    }
  }

  // ----- when a run gets there -----

  /** The last block of the chunk that holds block `b`. */
  function ChunkEnd(from: nat, batch: nat, latest: nat, b: nat): (r: nat)
    requires batch > 0 && from <= b <= latest
    ensures b <= r <= latest
    decreases b - from
  {
    if b < from + batch then Min(from + batch - 1, latest) else ChunkEnd(from + batch, batch, latest, b)
  }

  /** Every forecast that block `b` touches has its decision recorded by block `end`. */
  ghost predicate BlockTimely(t: Tables, n: Network, from: nat, end: nat, b: nat)
    requires b < |n.chain| && end < |n.chain|
  {
    forall e :: e in n.chain[b].events && ForecastEvent(e) ==> Visible(t, LogOf(n.chain, from, end + 1), n.head, e.forecastId)
  }

  ghost predicate Timely(t: Tables, n: Network, batch: nat, from: nat, latest: nat)
    requires batch > 0 && latest < |n.chain|
  {
    forall b :: TimelyAt(t, n, batch, from, latest, b)
  }

  ghost predicate TimelyAt(t: Tables, n: Network, batch: nat, from: nat, latest: nat, b: nat)
    requires batch > 0 && latest < |n.chain|
  {
    from <= b <= latest ==> BlockTimely(t, n, from, ChunkEnd(from, batch, latest, b), b)
  }

  lemma {:induction false} BlockOf(chain: seq<Block>, lo: nat, hi: nat, e: Event) returns (b: nat)
    requires hi <= |chain| && e in LogOf(chain, lo, hi)
    ensures lo <= b < hi && e in chain[b].events
  {
    if e in chain[hi - 1].events { b := hi - 1; } else { b := BlockOf(chain, lo, hi - 1, e); }
  }

  lemma {:induction false} InLog(chain: seq<Block>, lo: nat, hi: nat, b: nat, e: Event)
    requires lo <= b < hi <= |chain| && e in chain[b].events
    ensures e in LogOf(chain, lo, hi)
  {
    if b < hi - 1 { InLog(chain, lo, hi - 1, b, e); }
  }

  lemma TouchedInBlocks(t: Tables, n: Network, from: nat, to: nat)
    requires from <= to < |n.chain|
    ensures AllVisible(t, LogOf(n.chain, from, to + 1), n.head)
        <==> forall b :: from <= b <= to ==> BlockTimely(t, n, from, to, b)
  {
    hide Visible, TouchedForecasts, LogOf;
    var es := LogOf(n.chain, from, to + 1);
    ForecastsTouched(es);
    if AllVisible(t, es, n.head) {
      forall b, e | from <= b <= to && e in n.chain[b].events && ForecastEvent(e) ensures Visible(t, es, n.head, e.forecastId) {
        InLog(n.chain, from, to + 1, b, e);
        var i :| 0 <= i < |es| && es[i] == e;
        assert e.forecastId in TouchedForecasts(es);
      }
    }
    if forall b :: from <= b <= to ==> BlockTimely(t, n, from, to, b) {
      forall f | f in TouchedForecasts(es) ensures Visible(t, es, n.head, f) {
        var i :| 0 <= i < |es| && ForecastEvent(es[i]) && es[i].forecastId == f;
        var b := BlockOf(n.chain, from, to + 1, es[i]);
        assert BlockTimely(t, n, from, to, b);
      }
    }
  }

  lemma RecordedInConcat(a: seq<Event>, b: seq<Event>, d: Id)
    ensures RecordedIn(a + b, d) <==> RecordedIn(a, d) || RecordedIn(b, d)
  {
    var ab := a + b;
    if i :| 0 <= i < |a| && a[i].ResolutionDecisionRecorded? && a[i].decisionId == d { assert ab[i] == a[i]; }
    if i :| 0 <= i < |b| && b[i].ResolutionDecisionRecorded? && b[i].decisionId == d { assert ab[|a| + i] == b[i]; }
    if i :| 0 <= i < |ab| && ab[i].ResolutionDecisionRecorded? && ab[i].decisionId == d {
      assert if i < |a| then ab[i] == a[i] else ab[i] == b[i - |a|];
    }
  }

  lemma DecisionsAfter(t: Tables, es: seq<Event>, h: Head, d: Id)
    requires OrderedLog(es)
    ensures d in Project(t, es, h).decisions <==> d in t.decisions || RecordedIn(es, d)
  {
    hide Effects, Effect, Ordered, EventStmts, OrderedLog, RecordedIn;
    var ss := EventStmts(es, h);
    EventStmtsOrdered(es, h);
    ProjectRuns(t, es, h);
    RunSplits(t, ss);
    DecisionNormalForm(t.decisions, ss, d);
    RecordedIsIssued(es, h, d);
  }

  /** A forecast that is still touched later keeps the decision it would be stored with. */
  lemma StoredDecisionKept(t: Tables, es: seq<Event>, h: Head, f: Id)
    requires OrderedLog(es) && forall e :: e in es && e.ForecastSettled? ==> e.forecastId != f
    ensures StoredDecision(Project(t, es, h), h, f) == StoredDecision(t, h, f)
  {
    hide Effects, Effect, Ordered, EventStmts, OrderedLog, Stmts;
    var ss := EventStmts(es, h);
    EventStmtsOrdered(es, h);
    ProjectRuns(t, es, h);
    RunSplits(t, ss);
    ForecastNormalForm(t.forecasts, ss, f);
    UnsettledForecast(es, h, f);
  }

  lemma UnsettledForecast(es: seq<Event>, h: Head, f: Id)
    requires forall e :: e in es && e.ForecastSettled? ==> e.forecastId != f
    ensures var up := Last(EventStmts(es, h), Target(KForecast, IdKey(f)));
      up.Some? ==> up.value.forecast == h.forecast(f)
    ensures Last(EventStmts(es, h), Target(KSettlement, IdKey(f))).None?
  {
    hide EventStmts;
    var ss := EventStmts(es, h);
    var up, fin := Last(ss, Target(KForecast, IdKey(f))), Last(ss, Target(KSettlement, IdKey(f)));
    if up.Some? {
      var i := SourceOf(es, h, up.value);
      UpsertsReadTheHead(es[i], h, up.value);
    }
    if fin.Some? { var i := SourceOf(es, h, fin.value); }
  }

  lemma VisibleLater(t: Tables, es: seq<Event>, more: seq<Event>, h: Head, e: Event)
    requires OrderedLog(es) && ForecastEvent(e)
    requires forall x :: x in es ==> !EventClash(x, e)
    ensures Visible(Project(t, es, h), more, h, e.forecastId) <==> Visible(t, es + more, h, e.forecastId)
  {
    hide Project, OrderedLog, StoredDecision, RecordedIn;
    StoredDecisionKept(t, es, h, e.forecastId);
    var d := StoredDecision(t, h, e.forecastId);
    if d.Some? {
      DecisionsAfter(t, es, h, d.value);
      RecordedInConcat(es, more, d.value);
    }
  }

  lemma NoClashBetween(chain: seq<Block>, lo: nat, mid: nat, hi: nat, x: Event, y: Event)
    requires lo <= mid <= hi <= |chain| && OrderedLog(LogOf(chain, lo, hi))
    requires x in LogOf(chain, lo, mid) && y in LogOf(chain, mid, hi)
    ensures !EventClash(x, y)
  {
    hide EventClash, LogOf;
    var a, b := LogOf(chain, lo, mid), LogOf(chain, mid, hi);
    LogOfConcat(chain, lo, mid, hi);
    var i :| 0 <= i < |a| && a[i] == x;
    var j :| 0 <= j < |b| && b[j] == y;
    assert (a + b)[i] == x && (a + b)[|a| + j] == y;
  }

  /** After the first chunk, the rest of the run is timely exactly when it was before. */
  lemma TimelyRest(t: Tables, n: Network, batch: nat, from: nat, latest: nat)
    requires batch > 0 && latest < |n.chain| && from + batch <= latest
    requires OrderedLog(LogOf(n.chain, from, latest + 1))
    ensures var mid := from + batch;
      var u := Project(t, LogOf(n.chain, from, mid), n.head);
      Timely(u, n, batch, mid, latest) <==>
        forall b :: mid <= b <= latest ==> TimelyAt(t, n, batch, from, latest, b)
  {
    hide Project, OrderedLog, LogOf, Visible, EventClash;
    var mid := from + batch;
    var es := LogOf(n.chain, from, mid);
    var u := Project(t, es, n.head);
    LogOfConcat(n.chain, from, mid, latest + 1);
    assert OrderedLog(es) by { LogOrderedFront(es, LogOf(n.chain, mid, latest + 1)); }
    forall b | mid <= b <= latest
      ensures TimelyAt(u, n, batch, mid, latest, b) <==> TimelyAt(t, n, batch, from, latest, b)
    {
      var end := ChunkEnd(mid, batch, latest, b);
      LogOfConcat(n.chain, from, mid, end + 1);
      forall e | e in n.chain[b].events && ForecastEvent(e)
        ensures Visible(u, LogOf(n.chain, mid, end + 1), n.head, e.forecastId)
           <==> Visible(t, LogOf(n.chain, from, end + 1), n.head, e.forecastId)
      {
        InLog(n.chain, mid, latest + 1, b, e);
        forall x | x in es ensures !EventClash(x, e) { NoClashBetween(n.chain, from, mid, latest + 1, x, e); }
        VisibleLater(t, es, LogOf(n.chain, mid, end + 1), n.head, e);
      }
    }
  }

  lemma LogOrderedFront(a: seq<Event>, b: seq<Event>)
    requires OrderedLog(a + b)
    ensures OrderedLog(a) && OrderedLog(b)
  {
    hide EventClash;
    forall i, j | 0 <= i < j < |a| ensures !EventClash(a[i], a[j]) { assert (a + b)[i] == a[i] && (a + b)[j] == a[j]; }
    forall i, j | 0 <= i < j < |b| ensures !EventClash(b[i], b[j]) { assert (a + b)[|a| + i] == b[i] && (a + b)[|a| + j] == b[j]; }
  }

  lemma GroundedRest(t: Tables, a: seq<Event>, b: seq<Event>, h: Head)
    requires Grounded(t, a + b, h)
    ensures Grounded(t, a, h) && Grounded(Project(t, a, h), b, h)
  {
    hide GroundedEvent, Project;
    forall j | 0 <= j < |a| ensures GroundedEvent(Project(t, a[..j], h), a[j], h) {
      assert (a + b)[..j] == a[..j] && (a + b)[j] == a[j];
    }
    forall j | 0 <= j < |b| ensures GroundedEvent(Project(Project(t, a, h), b[..j], h), b[j], h) {
      assert (a + b)[..|a| + j] == a + b[..j] && (a + b)[|a| + j] == b[j];
      ProjectConcat(t, a, b[..j], h);
    }
  }

  /**
    The exact success condition of a run, for every batch size: it reaches the latest block if and
    only if every forecast touched in a block is stored with a decision that is recorded by the
    end of that block's chunk; otherwise it stops on the forecast foreign key.
  */
  lemma {:induction false} CatchUpExact(s: Store, n: Network, batch: nat, from: nat, latest: nat, budget: nat)
    requires batch > 0 && from <= latest < |n.chain| && budget > latest - from
    requires Sound(s.tables) && OrderedLog(LogOf(n.chain, from, latest + 1))
    requires Grounded(s.tables, LogOf(n.chain, from, latest + 1), n.head)
    ensures Advance(s, n, batch, from, latest, budget).error ==
      if Timely(s.tables, n, batch, from, latest) then None else Some(ChunkFailed(ForeignKey(KForecast)))
    decreases latest - from
  {
    hide Exec, BatchStmts, LogOf, Project, OrderedLog, Grounded, Sound, AllVisible, BlockTimely;
    var to := Min(from + batch - 1, latest);
    var es, r := LogOf(n.chain, from, to + 1), ApplyChunk(s, n, from, to);
    var rest := LogOf(n.chain, to + 1, latest + 1);
    LogOfConcat(n.chain, from, to + 1, latest + 1);
    LogOrderedFront(es, rest);
    GroundedRest(s.tables, es, rest, n.head);
    ChunkOutcomeExact(s.tables, es, n.head);
    TouchedInBlocks(s.tables, n, from, to);
    forall b | from <= b <= to ensures TimelyAt(s.tables, n, batch, from, latest, b) <==> BlockTimely(s.tables, n, from, to, b) {
      assert ChunkEnd(from, batch, latest, b) == to;
    }
    if to < latest {
      TimelyRest(s.tables, n, batch, from, latest);
      if r.error.None? { CatchUpExact(r.store, n, batch, to + 1, latest, budget - 1); }
      else { NotTimely(s.tables, n, batch, from, to, latest); }
    }
  }

  lemma NotTimely(t: Tables, n: Network, batch: nat, from: nat, to: nat, latest: nat)
    requires batch > 0 && from <= to <= latest < |n.chain| && to == Min(from + batch - 1, latest)
    requires exists b :: from <= b <= to && !BlockTimely(t, n, from, to, b)
    ensures !Timely(t, n, batch, from, latest)
  {
    hide BlockTimely;
    var b :| from <= b <= to && !BlockTimely(t, n, from, to, b);
    assert !TimelyAt(t, n, batch, from, latest, b);
  }

  /** If any batch size reaches the latest block, one chunk over the whole range does. */
  lemma OneChunkIsBest(t: Tables, n: Network, batch: nat, from: nat, latest: nat)
    requires batch > 0 && from <= latest < |n.chain| && Timely(t, n, batch, from, latest)
    ensures Timely(t, n, latest - from + 1, from, latest)
  {
    hide LogOf, StoredDecision, RecordedIn;
    var whole := latest - from + 1;
    forall b | from <= b <= latest ensures TimelyAt(t, n, whole, from, latest, b) {
      var end := ChunkEnd(from, batch, latest, b);
      assert TimelyAt(t, n, batch, from, latest, b);
      LogOfConcat(n.chain, from, end + 1, latest + 1);
      forall e | e in n.chain[b].events && ForecastEvent(e) ensures Visible(t, LogOf(n.chain, from, latest + 1), n.head, e.forecastId) {
        var d := StoredDecision(t, n.head, e.forecastId);
        if d.Some? { RecordedInConcat(LogOf(n.chain, from, end + 1), LogOf(n.chain, end + 1, latest + 1), d.value); }
      }
    }
  }

  /** Over the same network, a run that stopped on a chunk stops on the same chunk again, and nothing changes. */
  lemma {:induction false} RetryFailsAgain(s: Store, n: Network, batch: nat, from: nat, latest: int, budget: nat, again: nat)
    requires batch > 0 && latest < |n.chain| && s.cursor.Some? && from == s.cursor.value + 1 && again > 0
    ensures var r := Advance(s, n, batch, from, latest, budget);
      r.error.Some? ==> r.store.cursor.Some? && Advance(r.store, n, batch, r.store.cursor.value + 1, latest, again) == r
    decreases latest - from
  {
    hide Exec, BatchStmts, LogOf;
    if budget != 0 && from <= latest {
      var to := Min(from + batch - 1, latest);
      var r := ApplyChunk(s, n, from, to);
      if r.error.None? { RetryFailsAgain(r.store, n, batch, to + 1, latest, budget - 1, again); }
    }
  }

  // ----- the schema's constraints over all runs -----

  lemma {:induction false} AdvanceSound(s: Store, n: Network, batch: nat, from: nat, latest: int, budget: nat)
    requires batch > 0 && latest < |n.chain| && Sound(s.tables)
    ensures Sound(Advance(s, n, batch, from, latest, budget).store.tables)
    decreases latest - from
  {
    hide Sound, Exec, BatchStmts, LogOf;
    if budget != 0 && from <= latest {
      var to := Min(from + batch - 1, latest);
      var r := ApplyChunk(s, n, from, to);
      if r.error.None? {
        ExecIsSound(s.tables, BatchStmts(LogOf(n.chain, from, to + 1), n.head));
        AdvanceSound(r.store, n, batch, to + 1, latest, budget - 1);
      }
    }
  }

  lemma SyncSound(s: Store, c: Config, n: Network, budget: nat)
    requires c.batchSize > 0 && Sound(s.tables)
    ensures Sound(Sync(s, c, n, budget).store.tables)
  {
    hide Sound, Advance;
    var base := EnsureBaseState(s, c);
    if base.error.None? {
      var checked := CheckReorg(base.store, c, n.chain);
      var from, latest := FromBlock(checked.store, c), LatestBlock(n, c);
      if checked.error.None? && from <= latest { AdvanceSound(checked.store, n, c.batchSize, from, latest, budget); }
    }
  }

  /**
    Over any runs, on any chains, the tables satisfy every reference between them, hold one
    decision a replication and at most one effective decision a claim.
  */
  lemma {:induction false} RunsStaySound(attempts: seq<Attempt>)
    requires forall i :: 0 <= i < |attempts| ==> attempts[i].config.batchSize > 0
    ensures Sound(Runs(FreshStore, attempts).tables)
  {
    hide Sync;
    if |attempts| != 0 {
      var init, a := attempts[..|attempts| - 1], attempts[|attempts| - 1];
      RunsStaySound(init);
      SyncSound(Runs(FreshStore, init), a.config, a.network, a.budget);
    }
  }
}
