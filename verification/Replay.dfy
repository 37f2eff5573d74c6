/**
  Replaying a suffix of a log on tables that already hold the whole log changes nothing: the
  write-once columns, the insert-once rows and the last-writer flags absorb the repeat.
*/
module Replay {
  import opened Common
  import opened ReadModel
  import opened NormalForm
  import opened Projector

  lemma NoClashAcross(a: seq<Stmt>, b: seq<Stmt>, g: Target, k: Target)
    requires Ordered(a + b) && Last(a, g).Some? && Last(b, k).Some?
    ensures !Clash(Last(a, g).value, Last(b, k).value)
  {
    hide Clash;
    var x, y := Last(a, g).value, Last(b, k).value;
    var i :| 0 <= i < |a| && a[i] == x;
    var j :| 0 <= j < |b| && b[j] == y;
    assert (a + b)[i] == x && (a + b)[|a| + j] == y;
  }

  lemma ClaimAbsorbs(row: Option<ClaimRow>, a: seq<Stmt>, b: seq<Stmt>, id: Id)
    requires Ordered(a + b)
    ensures ClosedClaim(ClosedClaim(row, a + b, id), b, id) == ClosedClaim(row, a + b, id)
  {
    hide Ordered;
    var up, st := Target(KClaim, IdKey(id)), Target(KClaimStatus, IdKey(id));
    LastOfConcat(a, b, up);
    LastOfConcat(a, b, st);
    if Last(a, st).Some? && Last(b, up).Some? { NoClashAcross(a, b, st, up); }
  }

  lemma ArtifactAbsorbs(row: Option<ArtifactRow>, a: seq<Stmt>, b: seq<Stmt>, id: Id)
    ensures ClosedArtifact(ClosedArtifact(row, a + b, id), b, id) == ClosedArtifact(row, a + b, id)
  {
    FirstOfConcat(a, b, Target(KArtifact, IdKey(id)));
  }

  lemma ReplicationAbsorbs(row: Option<ReplicationRow>, a: seq<Stmt>, b: seq<Stmt>, id: Id)
    ensures ClosedReplication(ClosedReplication(row, a + b, id), b, id) == ClosedReplication(row, a + b, id)
  {
    LastOfConcat(a, b, Target(KReplication, IdKey(id)));
    LastOfConcat(a, b, Target(KResolution, IdKey(id)));
  }

  lemma DecisionAbsorbs(row: Option<DecisionRow>, a: seq<Stmt>, b: seq<Stmt>, id: Id)
    ensures ClosedDecision(ClosedDecision(row, a + b, id), b, id) == ClosedDecision(row, a + b, id)
  {
    FirstOfConcat(a, b, Target(KDecision, IdKey(id)));
    var once := ClosedDecision(row, a + b, id);
    if once.Some? { LastOfConcat(a, b, Target(KEffective, IdKey(once.value.body.claimId))); }
  }

  lemma CheckpointAbsorbs(row: Option<CheckpointRow>, a: seq<Stmt>, b: seq<Stmt>, id: Id)
    ensures ClosedCheckpoint(ClosedCheckpoint(row, a + b, id), b, id) == ClosedCheckpoint(row, a + b, id)
  {
    FirstOfConcat(a, b, Target(KCheckpoint, IdKey(id)));
  }

  lemma AgentAbsorbs(row: Option<AgentRow>, a: seq<Stmt>, b: seq<Stmt>, id: Id)
    ensures ClosedAgent(ClosedAgent(row, a + b, id), b, id) == ClosedAgent(row, a + b, id)
  {
    LastOfConcat(a, b, Target(KAgent, IdKey(id)));
  }

  lemma ControllerAbsorbs(row: Option<bool>, a: seq<Stmt>, b: seq<Stmt>, k: (Id, Text))
    ensures ClosedController(ClosedController(row, a + b, k), b, k) == ClosedController(row, a + b, k)
  {
    LastOfConcat(a, b, Target(KController, PairKey(k.0, k.1)));
  }

  lemma ForecastAbsorbs(row: Option<ForecastRow>, a: seq<Stmt>, b: seq<Stmt>, id: Id)
    requires Ordered(a + b)
    ensures ClosedForecast(ClosedForecast(row, a + b, id), b, id) == ClosedForecast(row, a + b, id)
  {
    hide Ordered;
    var up, fin := Target(KForecast, IdKey(id)), Target(KSettlement, IdKey(id));
    LastOfConcat(a, b, up);
    LastOfConcat(a, b, fin);
    if Last(a, fin).Some? && Last(b, up).Some? { NoClashAcross(a, b, fin, up); }
  }

  lemma ChallengeAbsorbs(row: Option<ChallengeRow>, a: seq<Stmt>, b: seq<Stmt>, id: Id)
    requires Ordered(a + b)
    ensures ClosedChallenge(ClosedChallenge(row, a + b, id), b, id) == ClosedChallenge(row, a + b, id)
  {
    hide Ordered;
    var up := Target(KChallenge, IdKey(id));
    var res, wd := Target(KChallengeResolution, IdKey(id)), Target(KChallengeWithdrawal, IdKey(id));
    LastOfConcat(a, b, up);
    LastOfConcat(a, b, res);
    LastOfConcat(a, b, wd);
    if Last(a, res).Some? && Last(b, up).Some? { NoClashAcross(a, b, res, up); }
    if Last(a, wd).Some? && Last(b, up).Some? { NoClashAcross(a, b, wd, up); }
  }

  lemma AppealAbsorbs(row: Option<AppealRow>, a: seq<Stmt>, b: seq<Stmt>, id: Id)
    requires Ordered(a + b)
    ensures ClosedAppeal(ClosedAppeal(row, a + b, id), b, id) == ClosedAppeal(row, a + b, id)
  {
    hide Ordered;
    var up, adj := Target(KAppeal, IdKey(id)), Target(KAdjudication, IdKey(id));
    LastOfConcat(a, b, up);
    LastOfConcat(a, b, adj);
    if Last(a, adj).Some? && Last(b, up).Some? { NoClashAcross(a, b, adj, up); }
  }

  /** Each row of the tables is determined by its closed form. */
  lemma ClosedFormIsUnique(t: Tables, ss: seq<Stmt>, u: Tables, v: Tables)
    requires InClosedForm(t, ss, u) && InClosedForm(t, ss, v)
    ensures u == v
  {
    SameLookups(u.claims, v.claims);
    SameLookups(u.artifacts, v.artifacts);
    SameLookups(u.replications, v.replications);
    SameLookups(u.decisions, v.decisions);
    SameLookups(u.checkpoints, v.checkpoints);
    SameLookups(u.agents, v.agents);
    SameLookups(u.controllers, v.controllers);
    SameLookups(u.forecasts, v.forecasts);
    SameLookups(u.challenges, v.challenges);
    SameLookups(u.appeals, v.appeals);
  }

  lemma RegistryAbsorbs(t: Tables, a: seq<Stmt>, b: seq<Stmt>, u: Tables)
    requires Ordered(a + b) && ClosedRegistry(t, a + b, u)
    ensures ClosedRegistry(u, b, u)
  {
    hide Ordered, ClosedClaim, ClosedArtifact, ClosedReplication, ClosedDecision, ClosedCheckpoint;
    forall id: Id
      ensures Lookup(u.claims, id) == ClosedClaim(Lookup(u.claims, id), b, id)
      ensures Lookup(u.artifacts, id) == ClosedArtifact(Lookup(u.artifacts, id), b, id)
      ensures Lookup(u.replications, id) == ClosedReplication(Lookup(u.replications, id), b, id)
      ensures Lookup(u.decisions, id) == ClosedDecision(Lookup(u.decisions, id), b, id)
      ensures Lookup(u.checkpoints, id) == ClosedCheckpoint(Lookup(u.checkpoints, id), b, id)
    {
      ClaimAbsorbs(Lookup(t.claims, id), a, b, id);
      ArtifactAbsorbs(Lookup(t.artifacts, id), a, b, id);
      ReplicationAbsorbs(Lookup(t.replications, id), a, b, id);
      DecisionAbsorbs(Lookup(t.decisions, id), a, b, id);
      CheckpointAbsorbs(Lookup(t.checkpoints, id), a, b, id);
    }
  }

  lemma MarketAbsorbs(t: Tables, a: seq<Stmt>, b: seq<Stmt>, u: Tables)
    requires Ordered(a + b) && ClosedMarket(t, a + b, u)
    ensures ClosedMarket(u, b, u)
  {
    hide Ordered, ClosedAgent, ClosedController, ClosedForecast, ClosedChallenge, ClosedAppeal;
    forall id: Id
      ensures Lookup(u.agents, id) == ClosedAgent(Lookup(u.agents, id), b, id)
      ensures Lookup(u.forecasts, id) == ClosedForecast(Lookup(u.forecasts, id), b, id)
      ensures Lookup(u.challenges, id) == ClosedChallenge(Lookup(u.challenges, id), b, id)
      ensures Lookup(u.appeals, id) == ClosedAppeal(Lookup(u.appeals, id), b, id)
    {
      AgentAbsorbs(Lookup(t.agents, id), a, b, id);
      ForecastAbsorbs(Lookup(t.forecasts, id), a, b, id);
      ChallengeAbsorbs(Lookup(t.challenges, id), a, b, id);
      AppealAbsorbs(Lookup(t.appeals, id), a, b, id);
    }
    forall k: (Id, Text) ensures Lookup(u.controllers, k) == ClosedController(Lookup(u.controllers, k), b, k) {
      ControllerAbsorbs(Lookup(t.controllers, k), a, b, k);
    }
  }

  /** An ordered list of statements absorbs the repetition of any of its suffixes. */
  lemma ReplayedRun(t: Tables, a: seq<Stmt>, b: seq<Stmt>)
    requires Ordered(a + b)
    ensures Effects(Effects(t, a + b), b) == Effects(t, a + b)
  {
    hide ClosedRegistry, ClosedMarket, Effects, Clash;
    var u := Effects(t, a + b);
    RunIsClosedForm(t, a + b);
    assert Ordered(b) by {
      forall i, j | 0 <= i < j < |b| ensures !Clash(b[i], b[j]) {
        assert (a + b)[|a| + i] == b[i] && (a + b)[|a| + j] == b[j];
      }
    }
    RunIsClosedForm(u, b);
    RegistryAbsorbs(t, a, b, u);
    MarketAbsorbs(t, a, b, u);
    ClosedFormIsUnique(u, b, Effects(u, b), u);
  }

  /**
    Replay convergence: on tables already synced to the end of a log, projecting the log again
    from any earlier point leaves the same tables, whether it is replayed event by event or as
    the regrouped transaction of a chunk.
  */
  lemma ReplayConverges(t: Tables, log: seq<Event>, k: nat, h: Head)
    requires OrderedLog(log) && k <= |log|
    ensures var synced := Project(t, log, h);
      Project(synced, log[k..], h) == synced && Effects(synced, BatchStmts(log[k..], h)) == synced
  {
    hide Ordered, Effects, Project;
    var a, b := EventStmts(log[..k], h), EventStmts(log[k..], h);
    assert log == log[..k] + log[k..];
    EventStmtsConcat(log[..k], log[k..], h);
    EventStmtsOrdered(log, h);
    ReplayedRun(t, a, b);
    ProjectRuns(t, log, h);
    ProjectRuns(Project(t, log, h), log[k..], h);
    BatchIsProjection(Project(t, log, h), log[k..], h);
  }
}
