/**
  Running the indexer again over blocks that it has indexed before: whether the repeated
  transactions commit, and what the chunk loop leaves when it starts at an earlier cursor.
*/
module ReplayRuns {
  import opened Common
  import opened ReadModel
  import opened NormalForm
  import opened Projector
  import opened ChunkOutcome
  import opened SyncRuns
  import opened CatchUp
  import opened Replay

  // ----- the events are grounded in the synced tables as well -----

  /** `q` holds every row that an event before it could refer to. */
  ghost predicate Grown(p: Tables, q: Tables) {
    && p.claims.Keys <= q.claims.Keys && p.replications.Keys <= q.replications.Keys
    && forall d :: d in p.decisions ==> d in q.decisions && q.decisions[d].body == p.decisions[d].body
  }

  lemma EffectGrows(t: Tables, s: Stmt)
    ensures Grown(t, Effect(t, s))
  {
  }

  lemma {:induction false} EffectsGrow(t: Tables, ss: seq<Stmt>)
    ensures Grown(t, Effects(t, ss))
  {
    hide Effect;
    if ss != [] {
      EffectsGrow(t, ss[..|ss| - 1]);
      EffectGrows(Effects(t, ss[..|ss| - 1]), ss[|ss| - 1]);
    }
  }

  lemma ProjectGrows(t: Tables, es: seq<Event>, h: Head)
    ensures Grown(t, Project(t, es, h))
  {
    ProjectRuns(t, es, h);
    EffectsGrow(t, EventStmts(es, h));
  }

  lemma GroundedInMore(p: Tables, q: Tables, e: Event, h: Head)
    requires Grown(p, q) && GroundedEvent(p, e, h)
    requires e.ResolutionDecisionRecorded? ==> e.decisionId in q.decisions
    ensures GroundedEvent(q, e, h)
  {
  }

  lemma ReplayGrounded(t: Tables, log: seq<Event>, k: nat, h: Head)
    requires OrderedLog(log) && Grounded(t, log, h) && k <= |log|
    ensures Grounded(Project(t, log, h), log[k..], h)
  {
    hide Project, GroundedEvent, Grown, OrderedLog, RecordedIn;
    var synced, rest := Project(t, log, h), log[k..];
    forall j | 0 <= j < |rest| ensures GroundedEvent(Project(synced, rest[..j], h), rest[j], h) {
      var p, q := Project(t, log[..k + j], h), Project(synced, rest[..j], h);
      assert rest[j] == log[k + j] && log == log[..k + j] + log[k + j..];
      ProjectConcat(t, log[..k + j], log[k + j..], h);
      ProjectGrows(p, log[k + j..], h);
      ProjectGrows(synced, rest[..j], h);
      GrownTwice(p, synced, q);
      if rest[j].ResolutionDecisionRecorded? {
        assert RecordedIn(log, rest[j].decisionId) by { Recorded(log, k + j); }
        DecisionsAfter(t, log, h, rest[j].decisionId);
        GrownDecision(synced, q, rest[j].decisionId);
      }
      GroundedInMore(p, q, rest[j], h);
    }
  }

  lemma Recorded(log: seq<Event>, i: nat)
    requires i < |log| && log[i].ResolutionDecisionRecorded?
    ensures RecordedIn(log, log[i].decisionId)
  {
  }

  lemma GrownTwice(p: Tables, q: Tables, r: Tables)
    requires Grown(p, q) && Grown(q, r)
    ensures Grown(p, r)
  {
  }

  lemma GrownDecision(p: Tables, q: Tables, d: Id)
    requires Grown(p, q) && d in p.decisions
    ensures d in q.decisions
  {
  }

  // ----- one repeated transaction -----

  /** Every forecast that `es` touches is stored with a decision that the tables hold. */
  predicate DecisionsRecorded(t: Tables, es: seq<Event>, h: Head) {
    forall f :: f in TouchedForecasts(es) ==> DecisionKnown(t, StoredDecision(t, h, f))
  }

  /** On tables that hold the whole log, a part of the log makes no further decision visible. */
  lemma VisibleMeansRecorded(t: Tables, log: seq<Event>, es: seq<Event>, h: Head, f: Id)
    requires OrderedLog(log) && forall e :: e in es ==> e in log
    ensures var u := Project(t, log, h); Visible(u, es, h, f) <==> DecisionKnown(u, StoredDecision(u, h, f))
  {
    hide Project, OrderedLog, StoredDecision;
    var u := Project(t, log, h);
    var d := StoredDecision(u, h, f);
    if d.Some? && RecordedIn(es, d.value) {
      var i :| 0 <= i < |es| && es[i].ResolutionDecisionRecorded? && es[i].decisionId == d.value;
      assert es[i] in es;
      var j :| 0 <= j < |log| && log[j] == es[i];
      DecisionsAfter(t, log, h, d.value);
    }
  }

  /**
    The outcome of a repeated transaction under any head: on synced tables, the transaction over
    any suffix of the log commits and leaves the tables as they are if and only if every forecast
    it touches is stored with a recorded decision. Otherwise it fails on the forecast foreign key.
  */
  lemma ReplayOutcome(t: Tables, log: seq<Event>, k: nat, h: Head)
    requires OrderedLog(log) && Grounded(t, log, h) && Sound(Project(t, log, h)) && k <= |log|
    ensures var synced := Project(t, log, h);
      Exec(synced, BatchStmts(log[k..], h)) ==
        if DecisionsRecorded(synced, log[k..], h) then Done(synced) else Failed(ForeignKey(KForecast))
  {
    hide Project, OrderedLog, StoredDecision, Exec, BatchStmts, Sound, Grounded, TouchedForecasts, Visible, DecisionKnown;
    var synced, rest := Project(t, log, h), log[k..];
    ReplayGrounded(t, log, k, h);
    assert log == log[..k] + rest;
    LogOrderedFront(log[..k], rest);
    ChunkOutcomeExact(synced, rest, h);
    ReplayConverges(t, log, k, h);
    forall f ensures Visible(synced, rest, h, f) <==> DecisionKnown(synced, StoredDecision(synced, h, f)) {
      VisibleMeansRecorded(t, log, rest, h, f);
    }
  }

  /** The head names the decision of every settlement, as the contract state after the log does. */
  predicate SettlementsNamed(log: seq<Event>, h: Head) {
    forall e :: e in log && e.ForecastSettled? ==> e.settledBy == h.forecast(e.forecastId).resolutionDecision
  }

  /** After the log, a touched forecast is stored without a decision only if the head reports none. */
  lemma StoredAfter(t: Tables, log: seq<Event>, h: Head, f: Id)
    requires OrderedLog(log) && SettlementsNamed(log, h) && f in TouchedForecasts(log)
    ensures var row := Lookup(Project(t, log, h).forecasts, f);
      row.Some? && (row.value.resolutionDecision.None? ==> h.forecast(f).resolutionDecision.None?)
  {
    hide Effects, Effect, Ordered, EventStmts, OrderedLog, Stmts, Project, TouchedForecasts, SettlementsNamed;
    var ss := EventStmts(log, h);
    EventStmtsOrdered(log, h);
    ProjectRuns(t, log, h);
    RunSplits(t, ss);
    ForecastNormalForm(t.forecasts, ss, f);
    UpsertedAndNamed(log, h, f);
  }

  lemma UpsertedAndNamed(log: seq<Event>, h: Head, f: Id)
    requires SettlementsNamed(log, h) && f in TouchedForecasts(log)
    ensures var up := Last(EventStmts(log, h), Target(KForecast, IdKey(f)));
      up.Some? && up.value.forecast == h.forecast(f)
    ensures var fin := Last(EventStmts(log, h), Target(KSettlement, IdKey(f)));
      fin.Some? ==> fin.value.settledBy == h.forecast(f).resolutionDecision
  {
    hide EventStmts, TouchedForecasts;
    var ss := EventStmts(log, h);
    ForecastsTouched(log);
    var i :| 0 <= i < |log| && ForecastEvent(log[i]) && log[i].forecastId == f;
    assert Stmts(log[i], h)[0] == UpsertForecast(f, h.forecast(f));
    Issued(log, h, i, UpsertForecast(f, h.forecast(f)));
    SomeHit(ss, Target(KForecast, IdKey(f)), UpsertForecast(f, h.forecast(f)));
    var up, fin := Last(ss, Target(KForecast, IdKey(f))), Last(ss, Target(KSettlement, IdKey(f)));
    var j := SourceOf(log, h, up.value);
    UpsertsReadTheHead(log[j], h, up.value);
    if fin.Some? {
      var k := SourceOf(log, h, fin.value);
      assert log[k] in log && log[k].ForecastSettled?;
    }
  }

  /** So every decision that a replay needs is already recorded. */
  lemma DecisionsStand(t: Tables, log: seq<Event>, es: seq<Event>, h: Head)
    requires OrderedLog(log) && SettlementsNamed(log, h) && Sound(Project(t, log, h))
    requires forall e :: e in es ==> e in log
    ensures DecisionsRecorded(Project(t, log, h), es, h)
  {
    hide OrderedLog, Project, TouchedForecasts, SettlementsNamed;
    var u := Project(t, log, h);
    forall f | f in TouchedForecasts(es) ensures DecisionKnown(u, StoredDecision(u, h, f)) {
      TouchedInMore(es, log, f);
      StoredAfter(t, log, h, f);
      assert SoundForecast(u, u.forecasts[f]);
    }
  }

  lemma TouchedInMore(a: seq<Event>, b: seq<Event>, f: Id)
    requires f in TouchedForecasts(a) && forall e :: e in a ==> e in b
    ensures f in TouchedForecasts(b)
  {
    hide TouchedForecasts;
    ForecastsTouched(a);
    ForecastsTouched(b);
    var i :| 0 <= i < |a| && ForecastEvent(a[i]) && a[i].forecastId == f;
    assert a[i] in a;
    var j :| 0 <= j < |b| && b[j] == a[i];
  }

  /**
    A repeated transaction: on tables synced to the end of a log whose settlements the head names,
    the transaction over any suffix of the log commits and changes nothing.
  */
  lemma ReplayCommits(t: Tables, log: seq<Event>, k: nat, h: Head)
    requires OrderedLog(log) && Grounded(t, log, h) && SettlementsNamed(log, h) && Sound(Project(t, log, h)) && k <= |log|
    ensures Exec(Project(t, log, h), BatchStmts(log[k..], h)) == Done(Project(t, log, h))
  {
    hide Project, OrderedLog, SettlementsNamed, Exec, BatchStmts, Sound, Grounded, DecisionsRecorded;
    ReplayOutcome(t, log, k, h);
    DecisionsStand(t, log, log[k..], h);
  }

  // ----- the chunk loop from an earlier cursor -----

  /** `s` holds the projection of blocks `first` up to `latest` of the chain. */
  ghost predicate Synced(s: Store, t: Tables, n: Network, first: nat, latest: nat) {
    && first <= latest < |n.chain|
    && OrderedLog(LogOf(n.chain, 0, |n.chain|))
    && Grounded(t, LogOf(n.chain, first, latest + 1), n.head)
    && s.tables == Project(t, LogOf(n.chain, first, latest + 1), n.head)
    && Sound(s.tables)
  }

  lemma SuffixOfLog(chain: seq<Block>, first: nat, from: nat, hi: nat)
    requires first <= from <= hi <= |chain|
    ensures var log := LogOf(chain, first, hi);
      |LogOf(chain, first, from)| <= |log| && log[|LogOf(chain, first, from)|..] == LogOf(chain, from, hi)
  {
    LogOfConcat(chain, first, from, hi);
  }

  lemma {:induction false} InnerLog(chain: seq<Block>, first: nat, from: nat, mid: nat, hi: nat)
    requires first <= from <= mid <= hi <= |chain|
    ensures forall e :: e in LogOf(chain, from, mid) ==> e in LogOf(chain, first, hi)
  {
    LogOfConcat(chain, first, from, hi);
    LogOfConcat(chain, from, mid, hi);
  }

  lemma PartVisible(s: Store, t: Tables, n: Network, first: nat, from: nat, end: nat, latest: nat, f: Id)
    requires Synced(s, t, n, first, latest) && first <= from <= end <= latest
    ensures Visible(s.tables, LogOf(n.chain, from, end + 1), n.head, f) <==> DecisionKnown(s.tables, StoredDecision(s.tables, n.head, f))
  {
    hide Project, OrderedLog, StoredDecision, Sound, Grounded, Visible, LogOf;
    OrderedSlice(n.chain, first, latest + 1);
    InnerLog(n.chain, first, from, end + 1, latest + 1);
    VisibleMeansRecorded(t, LogOf(n.chain, first, latest + 1), LogOf(n.chain, from, end + 1), n.head, f);
  }

  /** Whatever the batch size, a replay is timely exactly when every decision it needs is recorded. */
  lemma ReplayTimelyIff(s: Store, t: Tables, n: Network, first: nat, from: nat, latest: nat, batch: nat)
    requires Synced(s, t, n, first, latest) && first <= from <= latest && batch > 0
    ensures Timely(s.tables, n, batch, from, latest) <==> DecisionsRecorded(s.tables, LogOf(n.chain, from, latest + 1), n.head)
  {
    hide Project, OrderedLog, StoredDecision, Sound, Grounded, TouchedForecasts, Visible, LogOf, DecisionKnown, Synced;
    assert latest < |n.chain| by { SyncedRange(s, t, n, first, latest); }
    TouchedInBlocks(s.tables, n, from, latest);
    forall f ensures Visible(s.tables, LogOf(n.chain, from, latest + 1), n.head, f) <==> DecisionKnown(s.tables, StoredDecision(s.tables, n.head, f)) {
      PartVisible(s, t, n, first, from, latest, latest, f);
    }
    forall b | from <= b <= latest
      ensures TimelyAt(s.tables, n, batch, from, latest, b) <==> BlockTimely(s.tables, n, from, latest, b)
    {
      var end := ChunkEnd(from, batch, latest, b);
      forall e | e in n.chain[b].events && ForecastEvent(e)
        ensures Visible(s.tables, LogOf(n.chain, from, end + 1), n.head, e.forecastId)
           <==> Visible(s.tables, LogOf(n.chain, from, latest + 1), n.head, e.forecastId)
      {
        PartVisible(s, t, n, first, from, end, latest, e.forecastId);
      }
    }
  }

  lemma SyncedRange(s: Store, t: Tables, n: Network, first: nat, latest: nat)
    requires Synced(s, t, n, first, latest)
    ensures latest < |n.chain|
  {
  }

  /**
    The replayed loop: on synced tables, the chunk loop from any earlier block with any batch size
    ends without an error if and only if every decision it needs is recorded, and then it leaves
    the same tables and the cursor at the latest block.
  */
  lemma ReplayLoopExact(s: Store, t: Tables, n: Network, first: nat, from: nat, latest: nat, batch: nat, budget: nat)
    requires Synced(s, t, n, first, latest) && first <= from <= latest && batch > 0 && budget > latest - from
    ensures var r, rest := Advance(s, n, batch, from, latest, budget), LogOf(n.chain, from, latest + 1);
      && (r.error == if DecisionsRecorded(s.tables, rest, n.head) then None else Some(ChunkFailed(ForeignKey(KForecast))))
      && (r.error.None? ==> r.store.tables == s.tables && r.store.cursor == Some(latest))
  {
    hide Project, OrderedLog, Sound, Grounded, LogOf, Timely, DecisionsRecorded, Advance, BatchStmts, Effects;
    var log, k := LogOf(n.chain, first, latest + 1), |LogOf(n.chain, first, from)|;
    SuffixOfLog(n.chain, first, from, latest + 1);
    OrderedSlice(n.chain, first, latest + 1);
    OrderedSlice(n.chain, from, latest + 1);
    ReplayGrounded(t, log, k, n.head);
    CatchUpExact(s, n, batch, from, latest, budget);
    ReplayTimelyIff(s, t, n, first, from, latest, batch);
    AdvanceProjects(s, n, batch, from, latest, budget);
    ReplayConverges(t, log, k, n.head);
  }

  /**
    Replays of a finished run: when a run from any sound tables reached the latest block, running
    any part of it again, with any batch size, ends without an error and changes no table.
  */
  lemma FinishedRunReplays(s: Store, n: Network, first: nat, latest: nat, batch: nat, budget: nat,
                           from: nat, again: nat, budgetAgain: nat)
    requires batch > 0 && again > 0 && first <= from <= latest < |n.chain| && budget > latest - first && budgetAgain > latest - from
    requires Sound(s.tables) && OrderedLog(LogOf(n.chain, 0, |n.chain|))
    requires Grounded(s.tables, LogOf(n.chain, first, latest + 1), n.head)
    requires SettlementsNamed(LogOf(n.chain, first, latest + 1), n.head)
    requires Advance(s, n, batch, first, latest, budget).error.None?
    ensures var done := Advance(s, n, batch, first, latest, budget).store;
      var r := Advance(done, n, again, from, latest, budgetAgain);
      r.error.None? && r.store.tables == done.tables && r.store.cursor == Some(latest)
  {
    hide Project, OrderedLog, Sound, Grounded, LogOf, Advance, SettlementsNamed, DecisionsRecorded;
    var log, rest := LogOf(n.chain, first, latest + 1), LogOf(n.chain, from, latest + 1);
    var done := Advance(s, n, batch, first, latest, budget).store;
    OrderedSlice(n.chain, first, latest + 1);
    AdvanceSound(s, n, batch, first, latest, budget);
    AdvanceProjects(s, n, batch, first, latest, budget);
    InnerLog(n.chain, first, from, latest + 1, latest + 1);
    DecisionsStand(s.tables, log, rest, n.head);
    ReplayLoopExact(done, s.tables, n, first, from, latest, again, budgetAgain);
  }
}
