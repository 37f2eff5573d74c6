/**
  Running an ordered list of statements leaves every row in its closed form, so the order in
  which an ordered list is run does not matter as long as each target keeps its first and last
  statement.
*/
module NormalForm {
  import opened Common
  import opened ReadModel

  lemma OrderedPrefix(ss: seq<Stmt>, n: nat)
    requires Ordered(ss) && n <= |ss|
    ensures Ordered(ss[..n])
  {
  }

  lemma NoClashAtEnd(ss: seq<Stmt>, x: Stmt)
    requires Ordered(ss) && ss != [] && x in ss[..|ss| - 1]
    ensures !Clash(x, ss[|ss| - 1])
  {
    var i :| 0 <= i < |ss| - 1 && ss[i] == x;
    assert !Clash(ss[i], ss[|ss| - 1]);
  }

  /** The tables do not interact: each one can be run by itself. */
  lemma {:induction false} RunSplits(t: Tables, ss: seq<Stmt>)
    ensures Effects(t, ss) ==
      Tables(Run(t.claims, ss, ClaimStep), Run(t.artifacts, ss, ArtifactStep),
             Run(t.replications, ss, ReplicationStep), Run(t.decisions, ss, DecisionStep),
             Run(t.checkpoints, ss, CheckpointStep), Run(t.agents, ss, AgentStep),
             Run(t.controllers, ss, ControllerStep), Run(t.forecasts, ss, ForecastStep),
             Run(t.challenges, ss, ChallengeStep), Run(t.appeals, ss, AppealStep))
  {
    if ss != [] { RunSplits(t, ss[..|ss| - 1]); }
  }

  lemma {:induction false} ClaimNormalForm(m: map<Id, ClaimRow>, ss: seq<Stmt>, id: Id)
    requires Ordered(ss)
    ensures Lookup(Run(m, ss, ClaimStep), id) == ClosedClaim(Lookup(m, id), ss, id)
  {
    if ss != [] {
      var init := ss[..|ss| - 1];
      OrderedPrefix(ss, |ss| - 1);
      ClaimNormalForm(m, init, id);
      var st := Last(init, Target(KClaimStatus, IdKey(id)));
      if st.Some? { NoClashAtEnd(ss, st.value); }
    }
  }

  lemma {:induction false} ArtifactNormalForm(m: map<Id, ArtifactRow>, ss: seq<Stmt>, id: Id)
    ensures Lookup(Run(m, ss, ArtifactStep), id) == ClosedArtifact(Lookup(m, id), ss, id)
  {
    if ss != [] { ArtifactNormalForm(m, ss[..|ss| - 1], id); }
  }

  lemma {:induction false} ReplicationNormalForm(m: map<Id, ReplicationRow>, ss: seq<Stmt>, id: Id)
    requires Ordered(ss)
    ensures Lookup(Run(m, ss, ReplicationStep), id) == ClosedReplication(Lookup(m, id), ss, id)
  {
    if ss != [] {
      var init := ss[..|ss| - 1];
      OrderedPrefix(ss, |ss| - 1);
      ReplicationNormalForm(m, init, id);
      var res := Last(init, Target(KResolution, IdKey(id)));
      if res.Some? { NoClashAtEnd(ss, res.value); }
    }
  }

  lemma {:induction false} DecisionNormalForm(m: map<Id, DecisionRow>, ss: seq<Stmt>, id: Id)
    requires Ordered(ss)
    ensures Lookup(Run(m, ss, DecisionStep), id) == ClosedDecision(Lookup(m, id), ss, id)
  {
    if ss != [] {
      OrderedPrefix(ss, |ss| - 1);
      DecisionNormalForm(m, ss[..|ss| - 1], id);
      ClosedDecisionStep(Lookup(m, id), ss, id);
    }
  }

  lemma ClosedDecisionStep(row: Option<DecisionRow>, ss: seq<Stmt>, id: Id)
    requires Ordered(ss) && ss != []
    ensures var prior, s := ClosedDecision(row, ss[..|ss| - 1], id), ss[|ss| - 1];
      ClosedDecision(row, ss, id) ==
        if s.InsertDecision? && s.id == id && prior.None?
        then Some(DecisionRow(s.decision, s.createdAt, false))
        else if s.MarkEffective? && prior.Some? && prior.value.body.claimId == s.claimId
        then Some(prior.value.(effective := s.decisionId == id))
        else prior
  {
    var init, s := ss[..|ss| - 1], ss[|ss| - 1];
    if s.InsertDecision? && s.id == id {
      var mark := Last(init, Target(KEffective, IdKey(s.decision.claimId)));
      if mark.Some? { NoClashAtEnd(ss, mark.value); }
    }
  }

  lemma {:induction false} CheckpointNormalForm(m: map<Id, CheckpointRow>, ss: seq<Stmt>, id: Id)
    ensures Lookup(Run(m, ss, CheckpointStep), id) == ClosedCheckpoint(Lookup(m, id), ss, id)
  {
    if ss != [] { CheckpointNormalForm(m, ss[..|ss| - 1], id); }
  }

  lemma {:induction false} AgentNormalForm(m: map<Id, AgentRow>, ss: seq<Stmt>, id: Id)
    ensures Lookup(Run(m, ss, AgentStep), id) == ClosedAgent(Lookup(m, id), ss, id)
  {
    if ss != [] { AgentNormalForm(m, ss[..|ss| - 1], id); }
  }

  lemma {:induction false} ControllerNormalForm(m: map<(Id, Text), bool>, ss: seq<Stmt>, key: (Id, Text))
    ensures Lookup(Run(m, ss, ControllerStep), key) == ClosedController(Lookup(m, key), ss, key)
  {
    if ss != [] { ControllerNormalForm(m, ss[..|ss| - 1], key); }
  }

  lemma {:induction false} ForecastNormalForm(m: map<Id, ForecastRow>, ss: seq<Stmt>, id: Id)
    requires Ordered(ss)
    ensures Lookup(Run(m, ss, ForecastStep), id) == ClosedForecast(Lookup(m, id), ss, id)
  {
    if ss != [] {
      var init, s := ss[..|ss| - 1], ss[|ss| - 1];
      OrderedPrefix(ss, |ss| - 1);
      ForecastNormalForm(m, init, id);
      ClosedForecastStep(Lookup(m, id), ss, id);
    }
  }

  lemma ClosedForecastStep(row: Option<ForecastRow>, ss: seq<Stmt>, id: Id)
    requires Ordered(ss) && ss != []
    ensures var prior, s := ClosedForecast(row, ss[..|ss| - 1], id), ss[|ss| - 1];
      ClosedForecast(row, ss, id) ==
        if s.UpsertForecast? && s.id == id then Some(MergeForecast(prior, s.forecast))
        else if s.SettleForecast? && s.id == id && prior.Some?
        then Some(SettledForecast(prior.value, s.settledBy, s.settlement))
        else prior
  {
    var init, s := ss[..|ss| - 1], ss[|ss| - 1];
    var up := Last(init, Target(KForecast, IdKey(id)));
    var fin := Last(init, Target(KSettlement, IdKey(id)));
    if s.UpsertForecast? && s.id == id {
      if up.Some? { NoClashAtEnd(ss, up.value); }
      if fin.Some? { NoClashAtEnd(ss, fin.value); }
      assert fin.None? && (up.None? || up.value.forecast == s.forecast);
    }
  }

  lemma {:induction false} ChallengeNormalForm(m: map<Id, ChallengeRow>, ss: seq<Stmt>, id: Id)
    requires Ordered(ss)
    ensures Lookup(Run(m, ss, ChallengeStep), id) == ClosedChallenge(Lookup(m, id), ss, id)
  {
    if ss != [] {
      OrderedPrefix(ss, |ss| - 1);
      ChallengeNormalForm(m, ss[..|ss| - 1], id);
      ClosedChallengeStep(Lookup(m, id), ss, id);
    }
  }

  lemma ClosedChallengeStep(row: Option<ChallengeRow>, ss: seq<Stmt>, id: Id)
    requires Ordered(ss) && ss != []
    ensures var prior, s := ClosedChallenge(row, ss[..|ss| - 1], id), ss[|ss| - 1];
      ClosedChallenge(row, ss, id) ==
        if s.UpsertChallenge? && s.id == id then Opened(prior, Some(s))
        else if s.ResolveChallenge? && s.id == id then Resolved(prior, Some(s))
        else if s.WithdrawChallenge? && s.id == id then Withdrawn(prior, Some(s))
        else prior
  {
    var s := ss[|ss| - 1];
    if s.UpsertChallenge? && s.id == id { FreshChallenge(ss, id); }
  }

  lemma FreshChallenge(ss: seq<Stmt>, id: Id)
    requires Ordered(ss) && ss != [] && ss[|ss| - 1].UpsertChallenge? && ss[|ss| - 1].id == id
    ensures Last(ss[..|ss| - 1], Target(KChallengeResolution, IdKey(id))).None?
    ensures Last(ss[..|ss| - 1], Target(KChallengeWithdrawal, IdKey(id))).None?
  {
    var res := Last(ss[..|ss| - 1], Target(KChallengeResolution, IdKey(id)));
    var wd := Last(ss[..|ss| - 1], Target(KChallengeWithdrawal, IdKey(id)));
    if res.Some? { NoClashAtEnd(ss, res.value); }
    if wd.Some? { NoClashAtEnd(ss, wd.value); }
  }

  lemma {:induction false} AppealNormalForm(m: map<Id, AppealRow>, ss: seq<Stmt>, id: Id)
    requires Ordered(ss)
    ensures Lookup(Run(m, ss, AppealStep), id) == ClosedAppeal(Lookup(m, id), ss, id)
  {
    if ss != [] {
      OrderedPrefix(ss, |ss| - 1);
      AppealNormalForm(m, ss[..|ss| - 1], id);
      ClosedAppealStep(Lookup(m, id), ss, id);
    }
  }

  lemma ClosedAppealStep(row: Option<AppealRow>, ss: seq<Stmt>, id: Id)
    requires Ordered(ss) && ss != []
    ensures var prior, s := ClosedAppeal(row, ss[..|ss| - 1], id), ss[|ss| - 1];
      ClosedAppeal(row, ss, id) ==
        if s.UpsertAppeal? && s.id == id then Some(MergeAppeal(prior, s.appeal))
        else if s.AdjudicateAppeal? && s.id == id && prior.Some?
        then Some(AdjudicatedAppeal(prior.value, s.status, s.adjudicationHash, s.adjudicationURI, s.refundedAmount))
        else prior
  {
    var init, s := ss[..|ss| - 1], ss[|ss| - 1];
    var adj := Last(init, Target(KAdjudication, IdKey(id)));
    if s.UpsertAppeal? && s.id == id {
      if adj.Some? { NoClashAtEnd(ss, adj.value); }
      assert adj.None?;
    }
  }

  /** The claim-side tables of `u` hold, row by row, the closed form of running `ss` on `t`. */
  ghost predicate ClosedRegistry(t: Tables, ss: seq<Stmt>, u: Tables) {
    && (forall id: Id :: Lookup(u.claims, id) == ClosedClaim(Lookup(t.claims, id), ss, id))
    && (forall id: Id :: Lookup(u.artifacts, id) == ClosedArtifact(Lookup(t.artifacts, id), ss, id))
    && (forall id: Id :: Lookup(u.replications, id) == ClosedReplication(Lookup(t.replications, id), ss, id))
    && (forall id: Id :: Lookup(u.decisions, id) == ClosedDecision(Lookup(t.decisions, id), ss, id))
    && (forall id: Id :: Lookup(u.checkpoints, id) == ClosedCheckpoint(Lookup(t.checkpoints, id), ss, id))
  }

  /** The agent and market tables likewise. */
  ghost predicate ClosedMarket(t: Tables, ss: seq<Stmt>, u: Tables) {
    && (forall id: Id :: Lookup(u.agents, id) == ClosedAgent(Lookup(t.agents, id), ss, id))
    && (forall k: (Id, Text) :: Lookup(u.controllers, k) == ClosedController(Lookup(t.controllers, k), ss, k))
    && (forall id: Id :: Lookup(u.forecasts, id) == ClosedForecast(Lookup(t.forecasts, id), ss, id))
    && (forall id: Id :: Lookup(u.challenges, id) == ClosedChallenge(Lookup(t.challenges, id), ss, id))
    && (forall id: Id :: Lookup(u.appeals, id) == ClosedAppeal(Lookup(t.appeals, id), ss, id))
  }

  ghost predicate InClosedForm(t: Tables, ss: seq<Stmt>, u: Tables) {
    ClosedRegistry(t, ss, u) && ClosedMarket(t, ss, u)
  }

  /** The declarative reading of the read model: every column of every row from the statements alone. */
  lemma RunIsClosedForm(t: Tables, ss: seq<Stmt>)
    requires Ordered(ss)
    ensures InClosedForm(t, ss, Effects(t, ss))
  {
    RunSplits(t, ss);
    forall id: Id
      ensures Lookup(Effects(t, ss).claims, id) == ClosedClaim(Lookup(t.claims, id), ss, id)
      ensures Lookup(Effects(t, ss).artifacts, id) == ClosedArtifact(Lookup(t.artifacts, id), ss, id)
      ensures Lookup(Effects(t, ss).replications, id) == ClosedReplication(Lookup(t.replications, id), ss, id)
      ensures Lookup(Effects(t, ss).decisions, id) == ClosedDecision(Lookup(t.decisions, id), ss, id)
      ensures Lookup(Effects(t, ss).checkpoints, id) == ClosedCheckpoint(Lookup(t.checkpoints, id), ss, id)
      ensures Lookup(Effects(t, ss).agents, id) == ClosedAgent(Lookup(t.agents, id), ss, id)
      ensures Lookup(Effects(t, ss).forecasts, id) == ClosedForecast(Lookup(t.forecasts, id), ss, id)
      ensures Lookup(Effects(t, ss).challenges, id) == ClosedChallenge(Lookup(t.challenges, id), ss, id)
      ensures Lookup(Effects(t, ss).appeals, id) == ClosedAppeal(Lookup(t.appeals, id), ss, id)
    {
      ClaimNormalForm(t.claims, ss, id);
      ArtifactNormalForm(t.artifacts, ss, id);
      ReplicationNormalForm(t.replications, ss, id);
      DecisionNormalForm(t.decisions, ss, id);
      CheckpointNormalForm(t.checkpoints, ss, id);
      AgentNormalForm(t.agents, ss, id);
      ForecastNormalForm(t.forecasts, ss, id);
      ChallengeNormalForm(t.challenges, ss, id);
      AppealNormalForm(t.appeals, ss, id);
    }
    forall k: (Id, Text)
      ensures Lookup(Effects(t, ss).controllers, k) == ClosedController(Lookup(t.controllers, k), ss, k)
    {
      ControllerNormalForm(t.controllers, ss, k);
    }
  }

  /** Both lists aim the same first and last statement at every target. */
  ghost predicate SameEnds(a: seq<Stmt>, b: seq<Stmt>) {
    && (forall g: Target :: First(a, g) == First(b, g))
    && (forall g: Target :: Last(a, g) == Last(b, g))
  }

  lemma SameClaims(m: map<Id, ClaimRow>, a: seq<Stmt>, b: seq<Stmt>)
    requires Ordered(a) && Ordered(b) && SameEnds(a, b)
    ensures Run(m, a, ClaimStep) == Run(m, b, ClaimStep)
  {
    forall k: Id ensures Lookup(Run(m, a, ClaimStep), k) == Lookup(Run(m, b, ClaimStep), k) {
      ClaimNormalForm(m, a, k);
      ClaimNormalForm(m, b, k);
    }
    SameLookups(Run(m, a, ClaimStep), Run(m, b, ClaimStep));
  }

  lemma SameArtifacts(m: map<Id, ArtifactRow>, a: seq<Stmt>, b: seq<Stmt>)
    requires SameEnds(a, b)
    ensures Run(m, a, ArtifactStep) == Run(m, b, ArtifactStep)
  {
    forall k: Id ensures Lookup(Run(m, a, ArtifactStep), k) == Lookup(Run(m, b, ArtifactStep), k) {
      ArtifactNormalForm(m, a, k);
      ArtifactNormalForm(m, b, k);
    }
    SameLookups(Run(m, a, ArtifactStep), Run(m, b, ArtifactStep));
  }

  lemma SameReplications(m: map<Id, ReplicationRow>, a: seq<Stmt>, b: seq<Stmt>)
    requires Ordered(a) && Ordered(b) && SameEnds(a, b)
    ensures Run(m, a, ReplicationStep) == Run(m, b, ReplicationStep)
  {
    forall k: Id ensures Lookup(Run(m, a, ReplicationStep), k) == Lookup(Run(m, b, ReplicationStep), k) {
      ReplicationNormalForm(m, a, k);
      ReplicationNormalForm(m, b, k);
    }
    SameLookups(Run(m, a, ReplicationStep), Run(m, b, ReplicationStep));
  }

  lemma SameDecisions(m: map<Id, DecisionRow>, a: seq<Stmt>, b: seq<Stmt>)
    requires Ordered(a) && Ordered(b) && SameEnds(a, b)
    ensures Run(m, a, DecisionStep) == Run(m, b, DecisionStep)
  {
    forall k: Id ensures Lookup(Run(m, a, DecisionStep), k) == Lookup(Run(m, b, DecisionStep), k) {
      DecisionNormalForm(m, a, k);
      DecisionNormalForm(m, b, k);
    }
    SameLookups(Run(m, a, DecisionStep), Run(m, b, DecisionStep));
  }

  lemma SameCheckpoints(m: map<Id, CheckpointRow>, a: seq<Stmt>, b: seq<Stmt>)
    requires SameEnds(a, b)
    ensures Run(m, a, CheckpointStep) == Run(m, b, CheckpointStep)
  {
    forall k: Id ensures Lookup(Run(m, a, CheckpointStep), k) == Lookup(Run(m, b, CheckpointStep), k) {
      CheckpointNormalForm(m, a, k);
      CheckpointNormalForm(m, b, k);
    }
    SameLookups(Run(m, a, CheckpointStep), Run(m, b, CheckpointStep));
  }

  lemma SameAgents(m: map<Id, AgentRow>, a: seq<Stmt>, b: seq<Stmt>)
    requires SameEnds(a, b)
    ensures Run(m, a, AgentStep) == Run(m, b, AgentStep)
  {
    forall k: Id ensures Lookup(Run(m, a, AgentStep), k) == Lookup(Run(m, b, AgentStep), k) {
      AgentNormalForm(m, a, k);
      AgentNormalForm(m, b, k);
    }
    SameLookups(Run(m, a, AgentStep), Run(m, b, AgentStep));
  }

  lemma SameControllers(m: map<(Id, Text), bool>, a: seq<Stmt>, b: seq<Stmt>)
    requires SameEnds(a, b)
    ensures Run(m, a, ControllerStep) == Run(m, b, ControllerStep)
  {
    forall k: (Id, Text) ensures Lookup(Run(m, a, ControllerStep), k) == Lookup(Run(m, b, ControllerStep), k) {
      ControllerNormalForm(m, a, k);
      ControllerNormalForm(m, b, k);
    }
    SameLookups(Run(m, a, ControllerStep), Run(m, b, ControllerStep));
  }

  lemma SameForecasts(m: map<Id, ForecastRow>, a: seq<Stmt>, b: seq<Stmt>)
    requires Ordered(a) && Ordered(b) && SameEnds(a, b)
    ensures Run(m, a, ForecastStep) == Run(m, b, ForecastStep)
  {
    forall k: Id ensures Lookup(Run(m, a, ForecastStep), k) == Lookup(Run(m, b, ForecastStep), k) {
      ForecastNormalForm(m, a, k);
      ForecastNormalForm(m, b, k);
    }
    SameLookups(Run(m, a, ForecastStep), Run(m, b, ForecastStep));
  }

  lemma SameChallenges(m: map<Id, ChallengeRow>, a: seq<Stmt>, b: seq<Stmt>)
    requires Ordered(a) && Ordered(b) && SameEnds(a, b)
    ensures Run(m, a, ChallengeStep) == Run(m, b, ChallengeStep)
  {
    forall k: Id ensures Lookup(Run(m, a, ChallengeStep), k) == Lookup(Run(m, b, ChallengeStep), k) {
      ChallengeNormalForm(m, a, k);
      ChallengeNormalForm(m, b, k);
    }
    SameLookups(Run(m, a, ChallengeStep), Run(m, b, ChallengeStep));
  }

  lemma SameAppeals(m: map<Id, AppealRow>, a: seq<Stmt>, b: seq<Stmt>)
    requires Ordered(a) && Ordered(b) && SameEnds(a, b)
    ensures Run(m, a, AppealStep) == Run(m, b, AppealStep)
  {
    forall k: Id ensures Lookup(Run(m, a, AppealStep), k) == Lookup(Run(m, b, AppealStep), k) {
      AppealNormalForm(m, a, k);
      AppealNormalForm(m, b, k);
    }
    SameLookups(Run(m, a, AppealStep), Run(m, b, AppealStep));
  }

  /** Regrouping an ordered list into another ordered list with the same ends changes no table. */
  lemma RegroupedRun(t: Tables, a: seq<Stmt>, b: seq<Stmt>)
    requires Ordered(a) && Ordered(b) && SameEnds(a, b)
    ensures Effects(t, a) == Effects(t, b)
  {
    RunSplits(t, a);
    RunSplits(t, b);
    SameClaims(t.claims, a, b);
    SameArtifacts(t.artifacts, a, b);
    SameReplications(t.replications, a, b);
    SameDecisions(t.decisions, a, b);
    SameCheckpoints(t.checkpoints, a, b);
    SameAgents(t.agents, a, b);
    SameControllers(t.controllers, a, b);
    SameForecasts(t.forecasts, a, b);
    SameChallenges(t.challenges, a, b);
    SameAppeals(t.appeals, a, b);
  }
}
