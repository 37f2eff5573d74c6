/**
  A chain on which an indexer that catches up block by block stops for good, although one chunk
  over the same blocks commits: a forecast settled by decision 7 in block 3 was committed in
  block 1, and decision 7 is recorded in block 2.
*/
module SmallBatches {
  import opened Common
  import opened ReadModel
  import opened Projector
  import opened ChunkOutcome
  import opened SyncRuns
  import opened CatchUp
  import opened Retries

  const FORECAST := ForecastSnapshot(
    ForecastBody(1, "forecaster", 0, "commitment", 10, 1, 2, true, 1, 8000), true, None, Some(7))
  const SUBMISSION := ReplicationBody(1, "replicator", 0, "result")
  const DECISION := DecisionBody(1, 1, "module", 1, 3, 9000, "resolution", "evidence", 0, "actor")
  const CREATED := ClaimCreated(1, "author", 0, "metadata", "module", 1)
  const SUBMITTED := ReplicationSubmitted(1, SUBMISSION)
  const COMMITTED := ForecastCommitted(1)
  const RECORDED := ResolutionDecisionRecorded(7, DECISION)
  const SETTLED := ForecastSettled(1, Some(7), Settlement(3, true, 20))

  const CHAIN := [Block(100, 0, []), Block(101, 100, [CREATED, SUBMITTED, COMMITTED]),
                  Block(102, 101, [RECORDED]), Block(103, 102, [SETTLED])]

  const HEAD := Head(
    (c: Id) => 3, (c: Id) => None, (d: Id) => 2,
    (a: Id) => AgentRow("operator", "metadata", "uri", 0, 0, 0, true),
    (f: Id) => FORECAST,
    (c: Id) => ChallengeSnapshot(1, 1, "challenger", 0, "evidence", "uri", 0, 1, None, 1, None),
    (a: Id) => AppealSnapshot(1, 1, 1, "appellant", 0, "filing", "uri", 1, None, None, 0, 1, None))

  const NETWORK := Network(CHAIN, HEAD, 0)

  lemma TheLog()
    ensures LogOf(CHAIN, 1, 4) == [CREATED, SUBMITTED, COMMITTED, RECORDED, SETTLED]
    ensures LogOf(CHAIN, 1, 2) == [CREATED, SUBMITTED, COMMITTED]
    ensures OrderedLog(LogOf(CHAIN, 1, 4))
  {
    hide OrderedLog;
    assert LogOf(CHAIN, 1, 1) == [];
    assert LogOf(CHAIN, 1, 2) == [CREATED, SUBMITTED, COMMITTED];
    assert LogOf(CHAIN, 1, 3) == [CREATED, SUBMITTED, COMMITTED, RECORDED];
    SettledLast(LogOf(CHAIN, 1, 4));
  }

  lemma SettledLast(log: seq<Event>)
    requires log == [CREATED, SUBMITTED, COMMITTED, RECORDED, SETTLED]
    ensures OrderedLog(log)
  {
    forall i, j | 0 <= i < j < |log| ensures !EventClash(log[i], log[j]) {
      assert log[i] in [CREATED, SUBMITTED, COMMITTED, RECORDED];
    }
  }

  lemma OneMore(t: Tables, es: seq<Event>, j: nat, h: Head)
    requires j < |es|
    ensures Project(t, es[..j + 1], h) == Effects(Project(t, es[..j], h), Stmts(es[j], h))
  {
    assert es[..j + 1][..j] == es[..j];
  }

  lemma {:induction false} RowsKept(t: Tables, ss: seq<Stmt>)
    ensures var u := Effects(t, ss);
      t.claims.Keys <= u.claims.Keys && t.replications.Keys <= u.replications.Keys && t.decisions.Keys <= u.decisions.Keys
  {
    hide Effect;
    if ss != [] {
      RowsKept(t, ss[..|ss| - 1]);
      RowsStay(Effects(t, ss[..|ss| - 1]), ss[|ss| - 1]);
    }
  }

  /** Every event of the log refers only to what came before it. */
  lemma TheLogIsGrounded()
    ensures Sound(EmptyTables) && Grounded(EmptyTables, LogOf(CHAIN, 1, 4), HEAD)
  {
    var log := LogOf(CHAIN, 1, 4);
    TheLog();
    forall j | 0 <= j < |log| ensures GroundedEvent(Project(EmptyTables, log[..j], HEAD), log[j], HEAD) {
      GroundedAt(log, j);
    }
  }

  lemma GroundedAt(log: seq<Event>, j: nat)
    requires log == [CREATED, SUBMITTED, COMMITTED, RECORDED, SETTLED] && j < 5
    ensures GroundedEvent(Project(EmptyTables, log[..j], HEAD), log[j], HEAD)
  {
    hide Project, Effects, Effect;
    var p1, p2, p4 := Project(EmptyTables, log[..1], HEAD), Project(EmptyTables, log[..2], HEAD), Project(EmptyTables, log[..4], HEAD);
    OneMore(EmptyTables, log, 0, HEAD);
    OneMore(EmptyTables, log, 1, HEAD);
    OneMore(EmptyTables, log, 2, HEAD);
    OneMore(EmptyTables, log, 3, HEAD);
    NothingDecided(log);
    ClaimMade(Project(EmptyTables, log[..0], HEAD));
    assert 1 in p1.claims;
    RowsKept(p1, Stmts(SUBMITTED, HEAD));
    SubmissionMade(p1);
    RowsKept(p2, Stmts(COMMITTED, HEAD));
    RowsKept(Project(EmptyTables, log[..3], HEAD), Stmts(RECORDED, HEAD));
    DecisionMade(Project(EmptyTables, log[..3], HEAD));
  }

  lemma ClaimMade(t: Tables)
    ensures 1 in Effects(t, Stmts(CREATED, HEAD)).claims
  {
    assert Run(t, [], Effect) == t;
  }

  lemma SubmissionMade(t: Tables)
    ensures 1 in Effects(t, Stmts(SUBMITTED, HEAD)).replications
  {
    assert Run(t, [], Effect) == t;
  }

  lemma DecisionMade(t: Tables)
    ensures 7 in Effects(t, Stmts(RECORDED, HEAD)).decisions
  {
    assert Run(t, [], Effect) == t;
  }

  lemma NothingDecided(log: seq<Event>)
    requires log == [CREATED, SUBMITTED, COMMITTED, RECORDED, SETTLED]
    ensures Project(EmptyTables, log[..3], HEAD).decisions == map[]
  {
    hide Project, Effects, Effect, OrderedLog;
    var es := log[..3];
    var p := Project(EmptyTables, es, HEAD);
    forall d | d in p.decisions ensures false {
      assert OrderedLog(es) by { OrderedFront(log); }
      DecisionsAfter(EmptyTables, es, HEAD, d);
    }
  }

  lemma OrderedFront(log: seq<Event>)
    requires log == [CREATED, SUBMITTED, COMMITTED, RECORDED, SETTLED]
    ensures OrderedLog(log[..3])
  {
  }

  /** Block by block the run stops before committing anything; in one chunk it commits. */
  lemma SmallBatchesStop(s: Store, budget: nat)
    requires s.tables == EmptyTables && budget >= 3
    ensures Advance(s, NETWORK, 1, 1, 3, budget) == SyncResult(s, Some(ChunkFailed(ForeignKey(KForecast))))
    ensures Advance(s, NETWORK, 3, 1, 3, budget).error == None
  {
    hide Grounded, Sound, OrderedLog, Exec, BatchStmts;
    TheLog();
    TheLogIsGrounded();
    CatchUpExact(s, NETWORK, 1, 1, 3, budget);
    CatchUpExact(s, NETWORK, 3, 1, 3, budget);
    HiddenInBlockOne();
    VisibleInOneChunk();
    StopsAtOnce(s, budget);
  }

  lemma StopsOnForecastOne()
    ensures 1 in TouchedForecasts(LogOf(CHAIN, 1, 2)) && !Visible(EmptyTables, LogOf(CHAIN, 1, 2), HEAD, 1)
  {
    TheLog();
    var es := LogOf(CHAIN, 1, 2);
    assert StoredDecision(EmptyTables, HEAD, 1) == Some(7);
    assert !RecordedIn(es, 7);
    ForecastsTouched(es);
    assert ForecastEvent(es[2]) && es[2].forecastId == 1;
  }

  lemma HiddenInBlockOne()
    ensures !TimelyAt(EmptyTables, NETWORK, 1, 1, 3, 1)
    ensures !AllVisible(EmptyTables, LogOf(CHAIN, 1, 2), HEAD)
  {
    hide Visible, TouchedForecasts, LogOf;
    StopsOnForecastOne();
    assert COMMITTED in CHAIN[1].events && !Visible(EmptyTables, LogOf(CHAIN, 1, 2), HEAD, 1);
  }

  lemma VisibleInOneChunk()
    ensures Timely(EmptyTables, NETWORK, 3, 1, 3)
  {
    TheLog();
    var es := LogOf(CHAIN, 1, 4);
    assert es[3].ResolutionDecisionRecorded? && es[3].decisionId == 7;
    assert RecordedIn(es, 7);
    forall b ensures TimelyAt(EmptyTables, NETWORK, 3, 1, 3, b) {
      if 1 <= b <= 3 { assert ChunkEnd(1, 3, 3, b) == 3; }
    }
  }

  lemma StopsAtOnce(s: Store, budget: nat)
    requires s.tables == EmptyTables && budget >= 3
    ensures Advance(s, NETWORK, 1, 1, 3, budget).error.Some? ==> Advance(s, NETWORK, 1, 1, 3, budget).store == s
  {
    hide Grounded, Sound, OrderedLog, Exec, BatchStmts, LogOf, AllVisible, Project;
    TheLog();
    TheLogIsGrounded();
    LogOfConcat(CHAIN, 1, 2, 4);
    LogOrderedFront(LogOf(CHAIN, 1, 2), LogOf(CHAIN, 2, 4));
    GroundedRest(EmptyTables, LogOf(CHAIN, 1, 2), LogOf(CHAIN, 2, 4), HEAD);
    ChunkOutcomeExact(EmptyTables, LogOf(CHAIN, 1, 2), HEAD);
    HiddenInBlockOne();
    assert Min(1 + 1 - 1, 3) == 1;
  }

  const CONFIG := Config(1, 1, 1)
  const START := EnsureBaseState(FreshStore, CONFIG).store

  lemma FirstBlockGrounded()
    ensures OrderedLog(LogOf(CHAIN, 1, 2)) && Grounded(EmptyTables, LogOf(CHAIN, 1, 2), HEAD)
  {
    hide Grounded, OrderedLog, Project;
    TheLog();
    TheLogIsGrounded();
    LogOfConcat(CHAIN, 1, 2, 4);
    LogOrderedFront(LogOf(CHAIN, 1, 2), LogOf(CHAIN, 2, 4));
    GroundedRest(EmptyTables, LogOf(CHAIN, 1, 2), LogOf(CHAIN, 2, 4), HEAD);
  }

  lemma BlockOneNext()
    ensures HasNext(START, CONFIG, NETWORK) && NextEnd(START, CONFIG, NETWORK) == 1
    ensures NextChunk(START, CONFIG, NETWORK) == LogOf(CHAIN, 1, 2) && START.tables == EmptyTables
  {
    hide LogOf;
  }

  /** The indexer of this chain never gets past block 0 again, however many blocks are added behind block 1. */
  lemma StuckInBlockZero(attempts: seq<Attempt>)
    requires forall i :: 0 <= i < |attempts| ==>
      attempts[i].config == CONFIG && attempts[i].network.head == HEAD && attempts[i].network.confirmations == 0
      && |attempts[i].network.chain| >= 2 && attempts[i].network.chain[..2] == CHAIN[..2]
    ensures Runs(START, attempts) == START
  {
    hide Grounded, Sound, OrderedLog, LogOf, TouchedForecasts, Visible, RecordedIn, StoredDecision;
    BlockOneNext();
    FirstBlockGrounded();
    TheLogIsGrounded();
    StopsOnForecastOne();
    forall i | 0 <= i < |attempts| ensures LaterAttempt(START, CONFIG, NETWORK, 1, attempts[i]) {
      assert attempts[i].network.head == HEAD;
    }
    StuckForever(START, CONFIG, NETWORK, 1, attempts);
  }
}
