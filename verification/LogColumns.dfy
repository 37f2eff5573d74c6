/**
  Which columns come from the log alone, whatever the contract reads returned while it was
  indexed.

  `Columns(t, u, m)`: the tables agree on every column that only events write. A column that
  both an event and a contract read write (a claim's status, a settlement, a resolution, an
  adjudication) agrees when the event was the last to write it; `m` names those rows.
*/
module LogColumns {
  import opened Common
  import opened ReadModel
  import opened Projector
  import NormalForm

  type Marks = set<Target>

  /** The rows whose shared columns were last written by an event. */
  function Mark(m: Marks, e: Event): Marks {
    match e
    case ClaimCreated(id, _, _, _, _, _) => m - {Target(KClaimStatus, IdKey(id))}
    case ClaimStatusUpdated(id, _) => m + {Target(KClaimStatus, IdKey(id))}
    case ForecastCommitted(id) => m - {Target(KSettlement, IdKey(id))}
    case ForecastRevealed(id) => m - {Target(KSettlement, IdKey(id))}
    case ForecastSettled(id, _, _) => m + {Target(KSettlement, IdKey(id))}
    case ChallengeOpened(id) => m - {Target(KChallengeResolution, IdKey(id))}
    case ChallengeWithdrawn(id, _) => m - {Target(KChallengeResolution, IdKey(id))}
    case ChallengeResolved(id, _, _, _) => m + {Target(KChallengeResolution, IdKey(id))}
    case AppealFiled(id) => m - {Target(KAdjudication, IdKey(id))}
    case AppealAdjudicated(id, _, _, _, _) => m + {Target(KAdjudication, IdKey(id))}
    case _ => m
  }

  function Marked(es: seq<Event>): Marks {
    if es == [] then {} else Mark(Marked(es[..|es| - 1]), es[|es| - 1])
  }

  predicate SameClaim(a: ClaimRow, b: ClaimRow, final: bool) {
    && a.(status := b.status, revisionOf := b.revisionOf) == b
    && (final ==> a.status == b.status)
  }

  predicate SameForecast(a: ForecastRow, b: ForecastRow, final: bool) {
    && a.outcome == b.outcome
    && (final ==> a.settled == b.settled && a.resolutionDecision == b.resolutionDecision)
  }

  predicate SameChallenge(a: ChallengeRow, b: ChallengeRow, final: bool) {
    && a.payoutAmount == b.payoutAmount && a.refundedAmount == b.refundedAmount
    && (final ==> a.snapshot.status == b.snapshot.status && a.snapshot.resolutionHash == b.snapshot.resolutionHash)
  }

  predicate SameAppeal(a: AppealRow, b: AppealRow, final: bool) {
    && a.refundedAmount == b.refundedAmount
    && (final ==> a.snapshot.status == b.snapshot.status)
    && (final ==> a.snapshot.adjudicationHash == b.snapshot.adjudicationHash)
    && (final ==> a.snapshot.adjudicationURI == b.snapshot.adjudicationURI)
  }

  ghost predicate ClaimColumns(a: map<Id, ClaimRow>, b: map<Id, ClaimRow>, m: Marks) {
    a.Keys == b.Keys && forall k :: k in a ==> SameClaim(a[k], b[k], Target(KClaimStatus, IdKey(k)) in m)
  }

  ghost predicate DecisionColumns(a: map<Id, DecisionRow>, b: map<Id, DecisionRow>) {
    a.Keys == b.Keys && forall k :: k in a ==> a[k].(createdAt := b[k].createdAt) == b[k]
  }

  ghost predicate ForecastColumns(a: map<Id, ForecastRow>, b: map<Id, ForecastRow>, m: Marks) {
    a.Keys == b.Keys && forall k :: k in a ==> SameForecast(a[k], b[k], Target(KSettlement, IdKey(k)) in m)
  }

  ghost predicate ChallengeColumns(a: map<Id, ChallengeRow>, b: map<Id, ChallengeRow>, m: Marks) {
    a.Keys == b.Keys && forall k :: k in a ==> SameChallenge(a[k], b[k], Target(KChallengeResolution, IdKey(k)) in m)
  }

  ghost predicate AppealColumns(a: map<Id, AppealRow>, b: map<Id, AppealRow>, m: Marks) {
    a.Keys == b.Keys && forall k :: k in a ==> SameAppeal(a[k], b[k], Target(KAdjudication, IdKey(k)) in m)
  }

  ghost predicate Columns(t: Tables, u: Tables, m: Marks) {
    && ClaimColumns(t.claims, u.claims, m)
    && t.artifacts == u.artifacts
    && t.replications == u.replications
    && DecisionColumns(t.decisions, u.decisions)
    && t.checkpoints == u.checkpoints
    && t.agents.Keys == u.agents.Keys
    && t.controllers == u.controllers
    && ForecastColumns(t.forecasts, u.forecasts, m)
    && ChallengeColumns(t.challenges, u.challenges, m)
    && AppealColumns(t.appeals, u.appeals, m)
  }

  ghost predicate SameMarksBut(m: Marks, n: Marks, g: Target) {
    forall k :: k != g ==> (k in m <==> k in n)
  }

  lemma ClaimEventWrites(a: map<Id, ClaimRow>, e: Event, h: Head)
    ensures Run(a, Stmts(e, h), ClaimStep) ==
      if e.ClaimCreated? || e.ClaimStatusUpdated? then ClaimStep(a, Stmts(e, h)[0]) else a
  {
    RunStmts(a, e, h, ClaimStep);
  }

  lemma ClaimColumnsStay(a: map<Id, ClaimRow>, b: map<Id, ClaimRow>, m: Marks, e: Event, h: Head, k: Head)
    requires ClaimColumns(a, b, m)
    ensures ClaimColumns(Run(a, Stmts(e, h), ClaimStep), Run(b, Stmts(e, k), ClaimStep), Mark(m, e))
  {
    hide Run;
    ClaimEventWrites(a, e, h);
    ClaimEventWrites(b, e, k);
  }

  lemma DecisionEventWrites(a: map<Id, DecisionRow>, e: Event, h: Head)
    ensures Run(a, Stmts(e, h), DecisionStep) ==
      if e.ResolutionDecisionRecorded? || e.EffectiveResolutionDecisionUpdated? then DecisionStep(a, Stmts(e, h)[0]) else a
  {
    RunStmts(a, e, h, DecisionStep);
  }

  lemma DecisionColumnsStay(a: map<Id, DecisionRow>, b: map<Id, DecisionRow>, e: Event, h: Head, k: Head)
    requires DecisionColumns(a, b)
    ensures DecisionColumns(Run(a, Stmts(e, h), DecisionStep), Run(b, Stmts(e, k), DecisionStep))
  {
    hide Run;
    DecisionEventWrites(a, e, h);
    DecisionEventWrites(b, e, k);
  }

  lemma ForecastRowWritten(a: map<Id, ForecastRow>, b: map<Id, ForecastRow>, m: Marks, n: Marks, id: Id, x: ForecastRow, y: ForecastRow)
    requires ForecastColumns(a, b, m) && SameMarksBut(m, n, Target(KSettlement, IdKey(id)))
    requires SameForecast(x, y, Target(KSettlement, IdKey(id)) in n)
    ensures ForecastColumns(a[id := x], b[id := y], n)
  {
    hide SameForecast;
  }

  /** The row an event leaves behind: the head's snapshot, then what the event itself says. */
  function ForecastAfter(row: Option<ForecastRow>, e: Event, h: Head): ForecastRow
    requires ForecastEvent(e)
  {
    var r := MergeForecast(row, h.forecast(e.forecastId));
    if e.ForecastSettled? then SettledForecast(r, e.settledBy, e.settlement) else r
  }

  lemma SameForecastAfter(a: Option<ForecastRow>, b: Option<ForecastRow>, m: Marks, e: Event, h: Head, k: Head)
    requires ForecastEvent(e) && (a.Some? <==> b.Some?)
    requires a.Some? ==> SameForecast(a.value, b.value, Target(KSettlement, IdKey(e.forecastId)) in m)
    ensures SameForecast(ForecastAfter(a, e, h), ForecastAfter(b, e, k), Target(KSettlement, IdKey(e.forecastId)) in Mark(m, e))
    ensures SameMarksBut(m, Mark(m, e), Target(KSettlement, IdKey(e.forecastId)))
  {
  }

  lemma ForecastEventWrites(a: map<Id, ForecastRow>, e: Event, h: Head)
    ensures Run(a, Stmts(e, h), ForecastStep) ==
      if ForecastEvent(e) then a[e.forecastId := ForecastAfter(Lookup(a, e.forecastId), e, h)] else a
  {
    hide MergeForecast, Run;
    RunStmts(a, e, h, ForecastStep);
  }

  lemma ForecastColumnsStay(a: map<Id, ForecastRow>, b: map<Id, ForecastRow>, m: Marks, e: Event, h: Head, k: Head)
    requires ForecastColumns(a, b, m)
    ensures ForecastColumns(Run(a, Stmts(e, h), ForecastStep), Run(b, Stmts(e, k), ForecastStep), Mark(m, e))
  {
    hide Run, Stmts, ForecastStep, ForecastAfter, SameForecast;
    ForecastEventWrites(a, e, h);
    ForecastEventWrites(b, e, k);
    if ForecastEvent(e) {
      var id, n := e.forecastId, Mark(m, e);
      var x, y := ForecastAfter(Lookup(a, id), e, h), ForecastAfter(Lookup(b, id), e, k);
      assert id in a ==> SameForecast(a[id], b[id], Target(KSettlement, IdKey(id)) in m);
      SameForecastAfter(Lookup(a, id), Lookup(b, id), m, e, h, k);
      ForecastRowWritten(a, b, m, n, id, x, y);
    }
  }

  lemma ChallengeRowWritten(a: map<Id, ChallengeRow>, b: map<Id, ChallengeRow>, m: Marks, n: Marks, id: Id, x: ChallengeRow, y: ChallengeRow)
    requires ChallengeColumns(a, b, m) && SameMarksBut(m, n, Target(KChallengeResolution, IdKey(id)))
    requires SameChallenge(x, y, Target(KChallengeResolution, IdKey(id)) in n)
    ensures ChallengeColumns(a[id := x], b[id := y], n)
  {
    hide SameChallenge;
  }

  /** The row an event leaves behind: the head's snapshot, then what the event itself says. */
  function ChallengeAfter(row: Option<ChallengeRow>, e: Event, h: Head): ChallengeRow
    requires ChallengeEvent(e)
  {
    var r := MergeChallenge(row, h.challenge(e.challengeId));
    if e.ChallengeResolved? then ResolvedChallenge(r, e.status, e.resolutionHash, e.payoutAmount)
    else if e.ChallengeWithdrawn? then r.(refundedAmount := Some(e.refundedAmount))
    else r
  }

  lemma SameChallengeAfter(a: Option<ChallengeRow>, b: Option<ChallengeRow>, m: Marks, e: Event, h: Head, k: Head)
    requires ChallengeEvent(e) && (a.Some? <==> b.Some?)
    requires a.Some? ==> SameChallenge(a.value, b.value, Target(KChallengeResolution, IdKey(e.challengeId)) in m)
    ensures SameChallenge(ChallengeAfter(a, e, h), ChallengeAfter(b, e, k), Target(KChallengeResolution, IdKey(e.challengeId)) in Mark(m, e))
    ensures SameMarksBut(m, Mark(m, e), Target(KChallengeResolution, IdKey(e.challengeId)))
  {
  }

  lemma ChallengeEventWrites(a: map<Id, ChallengeRow>, e: Event, h: Head)
    ensures Run(a, Stmts(e, h), ChallengeStep) ==
      if ChallengeEvent(e) then a[e.challengeId := ChallengeAfter(Lookup(a, e.challengeId), e, h)] else a
  {
    hide MergeChallenge, Run;
    RunStmts(a, e, h, ChallengeStep);
  }

  lemma ChallengeColumnsStay(a: map<Id, ChallengeRow>, b: map<Id, ChallengeRow>, m: Marks, e: Event, h: Head, k: Head)
    requires ChallengeColumns(a, b, m)
    ensures ChallengeColumns(Run(a, Stmts(e, h), ChallengeStep), Run(b, Stmts(e, k), ChallengeStep), Mark(m, e))
  {
    hide Run, Stmts, ChallengeStep, ChallengeAfter, SameChallenge;
    ChallengeEventWrites(a, e, h);
    ChallengeEventWrites(b, e, k);
    if ChallengeEvent(e) {
      var id, n := e.challengeId, Mark(m, e);
      var x, y := ChallengeAfter(Lookup(a, id), e, h), ChallengeAfter(Lookup(b, id), e, k);
      assert id in a ==> SameChallenge(a[id], b[id], Target(KChallengeResolution, IdKey(id)) in m);
      SameChallengeAfter(Lookup(a, id), Lookup(b, id), m, e, h, k);
      ChallengeRowWritten(a, b, m, n, id, x, y);
    }
  }

  lemma AppealRowWritten(a: map<Id, AppealRow>, b: map<Id, AppealRow>, m: Marks, n: Marks, id: Id, x: AppealRow, y: AppealRow)
    requires AppealColumns(a, b, m) && SameMarksBut(m, n, Target(KAdjudication, IdKey(id)))
    requires SameAppeal(x, y, Target(KAdjudication, IdKey(id)) in n)
    ensures AppealColumns(a[id := x], b[id := y], n)
  {
    hide SameAppeal;
  }

  /** The row an event leaves behind: the head's snapshot, then what the event itself says. */
  function AppealAfter(row: Option<AppealRow>, e: Event, h: Head): AppealRow
    requires AppealEvent(e)
  {
    var r := MergeAppeal(row, h.appeal(e.appealId));
    if e.AppealAdjudicated?
    then AdjudicatedAppeal(r, e.status, e.adjudicationHash, e.adjudicationURI, e.refundedAmount) else r
  }

  lemma SameAppealAfter(a: Option<AppealRow>, b: Option<AppealRow>, m: Marks, e: Event, h: Head, k: Head)
    requires AppealEvent(e) && (a.Some? <==> b.Some?)
    requires a.Some? ==> SameAppeal(a.value, b.value, Target(KAdjudication, IdKey(e.appealId)) in m)
    ensures SameAppeal(AppealAfter(a, e, h), AppealAfter(b, e, k), Target(KAdjudication, IdKey(e.appealId)) in Mark(m, e))
    ensures SameMarksBut(m, Mark(m, e), Target(KAdjudication, IdKey(e.appealId)))
  {
  }

  lemma AppealEventWrites(a: map<Id, AppealRow>, e: Event, h: Head)
    ensures Run(a, Stmts(e, h), AppealStep) ==
      if AppealEvent(e) then a[e.appealId := AppealAfter(Lookup(a, e.appealId), e, h)] else a
  {
    hide MergeAppeal, Run;
    RunStmts(a, e, h, AppealStep);
  }

  lemma AppealColumnsStay(a: map<Id, AppealRow>, b: map<Id, AppealRow>, m: Marks, e: Event, h: Head, k: Head)
    requires AppealColumns(a, b, m)
    ensures AppealColumns(Run(a, Stmts(e, h), AppealStep), Run(b, Stmts(e, k), AppealStep), Mark(m, e))
  {
    hide Run, Stmts, AppealStep, AppealAfter, SameAppeal;
    AppealEventWrites(a, e, h);
    AppealEventWrites(b, e, k);
    if AppealEvent(e) {
      var id, n := e.appealId, Mark(m, e);
      var x, y := AppealAfter(Lookup(a, id), e, h), AppealAfter(Lookup(b, id), e, k);
      assert id in a ==> SameAppeal(a[id], b[id], Target(KAdjudication, IdKey(id)) in m);
      SameAppealAfter(Lookup(a, id), Lookup(b, id), m, e, h, k);
      AppealRowWritten(a, b, m, n, id, x, y);
    }
  }

  lemma ArtifactsStay(t: Tables, e: Event, h: Head, k: Head)
    ensures Run(t.artifacts, Stmts(e, h), ArtifactStep) == Run(t.artifacts, Stmts(e, k), ArtifactStep)
  {
    RunStmts(t.artifacts, e, h, ArtifactStep);
    RunStmts(t.artifacts, e, k, ArtifactStep);
  }

  lemma ReplicationEventWrites(a: map<Id, ReplicationRow>, e: Event, h: Head)
    ensures Run(a, Stmts(e, h), ReplicationStep) ==
      if e.ReplicationSubmitted? then ReplicationStep(a, UpsertReplication(e.replicationId, e.submission))
      else if e.ReplicationResolved? then ReplicationStep(a, ApplyReplicationResolution(e.replicationId, e.resolution))
      else a
  {
    RunStmts(a, e, h, ReplicationStep);
  }

  lemma ReplicationsStay(t: Tables, e: Event, h: Head, k: Head)
    ensures Run(t.replications, Stmts(e, h), ReplicationStep) == Run(t.replications, Stmts(e, k), ReplicationStep)
  {
    hide Run, Stmts, ReplicationStep;
    ReplicationEventWrites(t.replications, e, h);
    ReplicationEventWrites(t.replications, e, k);
  }

  lemma CheckpointsStay(t: Tables, e: Event, h: Head, k: Head)
    ensures Run(t.checkpoints, Stmts(e, h), CheckpointStep) == Run(t.checkpoints, Stmts(e, k), CheckpointStep)
  {
    RunStmts(t.checkpoints, e, h, CheckpointStep);
    RunStmts(t.checkpoints, e, k, CheckpointStep);
  }

  lemma ControllersStay(t: Tables, e: Event, h: Head, k: Head)
    ensures Run(t.controllers, Stmts(e, h), ControllerStep) == Run(t.controllers, Stmts(e, k), ControllerStep)
  {
    RunStmts(t.controllers, e, h, ControllerStep);
    RunStmts(t.controllers, e, k, ControllerStep);
  }

  lemma AgentRowsStay(a: map<Id, AgentRow>, b: map<Id, AgentRow>, e: Event, h: Head, k: Head)
    requires a.Keys == b.Keys
    ensures Run(a, Stmts(e, h), AgentStep).Keys == Run(b, Stmts(e, k), AgentStep).Keys
  {
    RunStmts(a, e, h, AgentStep);
    RunStmts(b, e, k, AgentStep);
  }

  /** An event issues one statement or two. */
  lemma RunStmts<M>(x: M, e: Event, h: Head, step: (M, Stmt) -> M)
    ensures var ss := Stmts(e, h);
      && (|ss| == 1 ==> Run(x, ss, step) == step(x, ss[0]))
      && (|ss| == 2 ==> Run(x, ss, step) == step(step(x, ss[0]), ss[1]))
      && 1 <= |ss| <= 2
  {
    var ss := Stmts(e, h);
    assert Run(x, [], step) == x;
    if |ss| == 2 { assert ss[..1][..0] == []; }
  }

  /** Projecting an event under two different heads keeps the log's columns equal. */
  lemma ColumnsStay(t: Tables, u: Tables, m: Marks, e: Event, h: Head, k: Head)
    requires Columns(t, u, m)
    ensures Columns(Effects(t, Stmts(e, h)), Effects(u, Stmts(e, k)), Mark(m, e))
  {
    hide Mark, Stmts, Run, ClaimColumns, DecisionColumns, ForecastColumns, ChallengeColumns, AppealColumns;
    NormalForm.RunSplits(t, Stmts(e, h));
    NormalForm.RunSplits(u, Stmts(e, k));
    ClaimColumnsStay(t.claims, u.claims, m, e, h, k);
    DecisionColumnsStay(t.decisions, u.decisions, e, h, k);
    ForecastColumnsStay(t.forecasts, u.forecasts, m, e, h, k);
    ChallengeColumnsStay(t.challenges, u.challenges, m, e, h, k);
    AppealColumnsStay(t.appeals, u.appeals, m, e, h, k);
    ArtifactsStay(t, e, h, k);
    ReplicationsStay(t, e, h, k);
    CheckpointsStay(t, e, h, k);
    ControllersStay(t, e, h, k);
    AgentRowsStay(t.agents, u.agents, e, h, k);
  }

  // ----- a log indexed by several runs, each under its own head -----

  /** Event `i` projected under head `i`: runs at different times read different contract states. */
  ghost function ProjectUnder(t: Tables, es: seq<Event>, hs: seq<Head>): Tables
    requires |es| == |hs|
  {
    if |es| == 0 then t
    else Effects(ProjectUnder(t, es[..|es| - 1], hs[..|es| - 1]), Stmts(es[|es| - 1], hs[|es| - 1]))
  }

  ghost function Repeat(h: Head, n: nat): (r: seq<Head>)
    ensures |r| == n && forall i :: 0 <= i < n ==> r[i] == h
  {
    seq(n, i => h)
  }

  /** Indexing more events in one run is projecting them under that run's head. */
  lemma {:induction false} ProjectUnderMore(t: Tables, es: seq<Event>, hs: seq<Head>, fs: seq<Event>, h: Head)
    requires |es| == |hs|
    ensures ProjectUnder(t, es + fs, hs + Repeat(h, |fs|)) == Project(ProjectUnder(t, es, hs), fs, h)
  {
    hide Effects, Stmts;
    if fs == [] {
      assert es + fs == es && hs + Repeat(h, 0) == hs;
    } else {
      var init := fs[..|fs| - 1];
      ProjectUnderMore(t, es, hs, init, h);
      assert (es + fs)[..|es + fs| - 1] == es + init;
      assert (hs + Repeat(h, |fs|))[..|es + fs| - 1] == hs + Repeat(h, |init|);
    }
  }

  /**
    The columns that come from the log do not depend on the heads: however many runs indexed the
    log, they equal those of folding it once, one event at a time, under any head.
  */
  lemma {:induction false} LogColumnsAgree(t: Tables, es: seq<Event>, hs: seq<Head>, h: Head)
    requires |es| == |hs|
    ensures Columns(ProjectUnder(t, es, hs), Project(t, es, h), Marked(es))
  {
    hide Effects, Stmts, Mark;
    if es != [] {
      var init := es[..|es| - 1];
      LogColumnsAgree(t, init, hs[..|es| - 1], h);
      ColumnsStay(ProjectUnder(t, init, hs[..|es| - 1]), Project(t, init, h), Marked(init), es[|es| - 1], hs[|es| - 1], h);
    }
  }
}
