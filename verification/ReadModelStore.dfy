/**
  The read-model database as the indexer mutates it (src/indexer/store.ts) and the transaction
  and sync loop that drive it (src/indexer/projector.ts). Each write method changes one table in
  place; every method is proved against the value-level specification in `ReadModel` and
  `SyncRuns`, so all their theorems hold of this code.
*/
module IndexerStore {
  import opened Common
  import opened ReadModel
  import opened Projector
  import opened GroupBuilder
  import opened SyncRuns

  /** A transaction that runs in two parts. */
  lemma {:induction false} ExecConcat(t: Tables, a: seq<Stmt>, b: seq<Stmt>)
    ensures Exec(t, a + b) == match Exec(t, a) case Failed(e) => Failed(e) case Done(u) => Exec(u, b)
  {
    hide Check, Effect;
    if b == [] {
      assert a + b == a;
    } else {
      assert (a + b)[..|a + b| - 1] == a + b[..|b| - 1];
      ExecConcat(t, a, b[..|b| - 1]);
    }
  }

  lemma NothingRun(t: Tables, es: seq<Event>, h: Head)
    ensures Exec(t, Groups(es, h, 0)) == Done(t)
  {
  }

  class ReadModelStore {
    var claims: map<Id, ClaimRow>
    var artifacts: map<Id, ArtifactRow>
    var replications: map<Id, ReplicationRow>
    var decisions: map<Id, DecisionRow>
    var checkpoints: map<Id, CheckpointRow>
    var agents: map<Id, AgentRow>
    var controllers: map<(Id, Text), bool>
    var forecasts: map<Id, ForecastRow>
    var challenges: map<Id, ChallengeRow>
    var appeals: map<Id, AppealRow>
    var cursor: Option<nat>
    var hashes: map<nat, Hash>
    var deployment: Option<(nat, nat)>

    function View(): Tables
      reads this
    {
      Tables(claims, artifacts, replications, decisions, checkpoints, agents, controllers, forecasts, challenges, appeals)
    }

    function State(): Store
      reads this
    {
      Store(View(), cursor, hashes, deployment)
    }

    /** An empty database, before the first run. */
    constructor ()
      ensures State() == FreshStore
    {
      claims, artifacts, replications, decisions, checkpoints := map[], map[], map[], map[], map[];
      agents, controllers, forecasts, challenges, appeals := map[], map[], map[], map[], map[];
      cursor, hashes, deployment := None, map[], None;
    }

    // ----- one method per write -----

    method UpsertClaim(id: Id, claim: ClaimRow)
      modifies `claims
      ensures View() == Effect(old(View()), Stmt.UpsertClaim(id, claim))
    {
      claims := claims[id := claim];
    }

    method UpdateClaimStatus(id: Id, status: nat) returns (err: Option<StmtError>)
      modifies `claims
      ensures err == Check(old(View()), Stmt.UpdateClaimStatus(id, status))
      ensures View() == Effect(old(View()), Stmt.UpdateClaimStatus(id, status))
    {
      if id !in claims { return Some(WasNotPresent(KClaimStatus)); }
      claims := claims[id := claims[id].(status := status)];
      err := None;
    }

    method InsertArtifact(id: Id, artifact: ArtifactRow) returns (err: Option<StmtError>)
      modifies `artifacts
      ensures err == Check(old(View()), Stmt.InsertArtifact(id, artifact))
      ensures err.None? ==> View() == Effect(old(View()), Stmt.InsertArtifact(id, artifact))
    {
      err := None;
      if id in artifacts { return; }
      if artifact.claimId !in claims { return Some(ForeignKey(KArtifact)); }
      artifacts := artifacts[id := artifact];
    }

    method UpsertReplicationSubmission(id: Id, body: ReplicationBody) returns (err: Option<StmtError>)
      modifies `replications
      ensures err == Check(old(View()), UpsertReplication(id, body))
      ensures err.None? ==> View() == Effect(old(View()), UpsertReplication(id, body))
    {
      if body.claimId !in claims { return Some(ForeignKey(KReplication)); }
      if id in replications {
        replications := replications[id := replications[id].(body := body)];
      } else {
        replications := replications[id := ReplicationRow(body, None)];
      }
      err := None;
    }

    method ApplyReplicationResolution(id: Id, resolution: Resolution) returns (err: Option<StmtError>)
      modifies `replications
      ensures err == Check(old(View()), Stmt.ApplyReplicationResolution(id, resolution))
      ensures View() == Effect(old(View()), Stmt.ApplyReplicationResolution(id, resolution))
    {
      if id !in replications { return Some(WasNotPresent(KResolution)); }
      replications := replications[id := replications[id].(resolution := Some(resolution))];
      err := None;
    }

    method InsertResolutionDecision(id: Id, decision: DecisionBody, createdAt: nat) returns (err: Option<StmtError>)
      modifies `decisions
      ensures err == Check(old(View()), InsertDecision(id, decision, createdAt))
      ensures err.None? ==> View() == Effect(old(View()), InsertDecision(id, decision, createdAt))
    {
      err := None;
      if id in decisions { return; }
      if exists d :: d in decisions && decisions[d].body.replicationId == decision.replicationId {
        return Some(UniqueReplication);
      }
      if decision.claimId !in claims || decision.replicationId !in replications { return Some(ForeignKey(KDecision)); }
      decisions := decisions[id := DecisionRow(decision, createdAt, false)];
    }

    /** Two UPDATEs: clear the claim's flags, then set one, which must hit exactly one row. */
    method MarkEffectiveResolutionDecision(claimId: Id, decisionId: Id) returns (err: Option<StmtError>)
      modifies `decisions
      ensures err == Check(old(View()), MarkEffective(claimId, decisionId))
      ensures err.None? ==> View() == Effect(old(View()), MarkEffective(claimId, decisionId))
    {
      decisions := map d | d in decisions ::
        if decisions[d].body.claimId == claimId then decisions[d].(effective := false) else decisions[d];
      if decisionId !in decisions || decisions[decisionId].body.claimId != claimId {
        return Some(WasNotPresent(KEffective));
      }
      decisions := decisions[decisionId := decisions[decisionId].(effective := true)];
      assert decisions == MarkedDecisions(old(decisions), claimId, decisionId);
      err := None;
    }

    method InsertCheckpoint(id: Id, checkpoint: CheckpointRow)
      modifies `checkpoints
      ensures View() == Effect(old(View()), Stmt.InsertCheckpoint(id, checkpoint))
    {
      if id !in checkpoints { checkpoints := checkpoints[id := checkpoint]; }
    }

    method UpsertAgent(id: Id, agent: AgentRow)
      modifies `agents
      ensures View() == Effect(old(View()), Stmt.UpsertAgent(id, agent))
    {
      agents := agents[id := agent];
    }

    method UpsertAgentController(agentId: Id, controller: Text, authorized: bool) returns (err: Option<StmtError>)
      modifies `controllers
      ensures err == Check(old(View()), UpsertController(agentId, controller, authorized))
      ensures err.None? ==> View() == Effect(old(View()), UpsertController(agentId, controller, authorized))
    {
      if agentId !in agents { return Some(ForeignKey(KController)); }
      controllers := controllers[(agentId, controller) := authorized];
      err := None;
    }

    method UpsertForecast(id: Id, f: ForecastSnapshot) returns (err: Option<StmtError>)
      modifies `forecasts
      ensures err == Check(old(View()), Stmt.UpsertForecast(id, f))
      ensures err.None? ==> View() == Effect(old(View()), Stmt.UpsertForecast(id, f))
    {
      var row := ForecastRow(f.body, f.settled, f.effectiveDecisionAtCommit, f.resolutionDecision, None);
      if id in forecasts {
        var stored := forecasts[id];
        row := row.(effectiveDecisionAtCommit := Coalesce(stored.effectiveDecisionAtCommit, f.effectiveDecisionAtCommit),
                    resolutionDecision := Coalesce(stored.resolutionDecision, f.resolutionDecision),
                    outcome := stored.outcome);
      }
      if row.body.claimId !in claims
         || (row.effectiveDecisionAtCommit.Some? && row.effectiveDecisionAtCommit.value !in decisions)
         || (row.resolutionDecision.Some? && row.resolutionDecision.value !in decisions) {
        return Some(ForeignKey(KForecast));
      }
      forecasts := forecasts[id := row];
      err := None;
    }

    method ApplyForecastSettlement(id: Id, decision: Option<Id>, settlement: Settlement) returns (err: Option<StmtError>)
      modifies `forecasts
      ensures err == Check(old(View()), SettleForecast(id, decision, settlement))
      ensures err.None? ==> View() == Effect(old(View()), SettleForecast(id, decision, settlement))
    {
      if id !in forecasts { return Some(WasNotPresent(KSettlement)); }
      if decision.Some? && decision.value !in decisions { return Some(ForeignKey(KSettlement)); }
      forecasts := forecasts[id :=
        forecasts[id].(resolutionDecision := decision, outcome := Some(settlement), settled := true)];
      err := None;
    }

    method UpsertChallenge(id: Id, challenge: ChallengeSnapshot) returns (err: Option<StmtError>)
      modifies `challenges
      ensures err == Check(old(View()), Stmt.UpsertChallenge(id, challenge))
      ensures err.None? ==> View() == Effect(old(View()), Stmt.UpsertChallenge(id, challenge))
    {
      if challenge.claimId !in claims { return Some(ForeignKey(KChallenge)); }
      if id in challenges {
        challenges := challenges[id := challenges[id].(snapshot := challenge)];
      } else {
        challenges := challenges[id := ChallengeRow(challenge, None, None)];
      }
      err := None;
    }

    method ApplyChallengeResolution(id: Id, status: nat, hash: Text, payout: nat) returns (err: Option<StmtError>)
      modifies `challenges
      ensures err == Check(old(View()), ResolveChallenge(id, status, hash, payout))
      ensures View() == Effect(old(View()), ResolveChallenge(id, status, hash, payout))
    {
      if id !in challenges { return Some(WasNotPresent(KChallengeResolution)); }
      var row := challenges[id];
      challenges := challenges[id :=
        row.(snapshot := row.snapshot.(status := status, resolutionHash := Some(hash)), payoutAmount := Some(payout))];
      err := None;
    }

    method ApplyChallengeWithdrawal(id: Id, refund: nat) returns (err: Option<StmtError>)
      modifies `challenges
      ensures err == Check(old(View()), WithdrawChallenge(id, refund))
      ensures View() == Effect(old(View()), WithdrawChallenge(id, refund))
    {
      if id !in challenges { return Some(WasNotPresent(KChallengeWithdrawal)); }
      challenges := challenges[id := challenges[id].(refundedAmount := Some(refund))];
      err := None;
    }

    method UpsertAppeal(id: Id, appeal: AppealSnapshot) returns (err: Option<StmtError>)
      modifies `appeals
      ensures err == Check(old(View()), Stmt.UpsertAppeal(id, appeal))
      ensures err.None? ==> View() == Effect(old(View()), Stmt.UpsertAppeal(id, appeal))
    {
      if appeal.claimId !in claims { return Some(ForeignKey(KAppeal)); }
      if id in appeals {
        appeals := appeals[id := appeals[id].(snapshot := appeal)];
      } else {
        appeals := appeals[id := AppealRow(appeal, None)];
      }
      err := None;
    }

    method ApplyAppealAdjudication(id: Id, status: nat, hash: Text, uri: Text, refund: nat) returns (err: Option<StmtError>)
      modifies `appeals
      ensures err == Check(old(View()), AdjudicateAppeal(id, status, hash, uri, refund))
      ensures View() == Effect(old(View()), AdjudicateAppeal(id, status, hash, uri, refund))
    {
      if id !in appeals { return Some(WasNotPresent(KAdjudication)); }
      var row := appeals[id];
      appeals := appeals[id :=
        row.(snapshot := row.snapshot.(status := status, adjudicationHash := Some(hash), adjudicationURI := Some(uri)),
             refundedAmount := Some(refund))];
      err := None;
    }

    // ----- transactions -----

    method Execute(s: Stmt) returns (err: Option<StmtError>)
      modifies this
      ensures err == Check(old(View()), s)
      ensures err.None? ==> View() == Effect(old(View()), s)
      ensures cursor == old(cursor) && hashes == old(hashes) && deployment == old(deployment)
    {
      hide Effect;
      err := None;
      match s {
        case UpsertClaim(id, claim) => UpsertClaim(id, claim);
        case UpdateClaimStatus(id, status) => err := UpdateClaimStatus(id, status);
        case InsertArtifact(id, artifact) => err := InsertArtifact(id, artifact);
        case UpsertReplication(id, body) => err := UpsertReplicationSubmission(id, body);
        case ApplyReplicationResolution(id, resolution) => err := ApplyReplicationResolution(id, resolution);
        case InsertDecision(id, decision, createdAt) => err := InsertResolutionDecision(id, decision, createdAt);
        case MarkEffective(claimId, decisionId) => err := MarkEffectiveResolutionDecision(claimId, decisionId);
        case InsertCheckpoint(id, checkpoint) => InsertCheckpoint(id, checkpoint);
        case UpsertAgent(id, agent) => UpsertAgent(id, agent);
        case UpsertController(agentId, controller, authorized) => err := UpsertAgentController(agentId, controller, authorized);
        case UpsertForecast(id, forecast) => err := UpsertForecast(id, forecast);
        case SettleForecast(id, decision, settlement) => err := ApplyForecastSettlement(id, decision, settlement);
        case UpsertChallenge(id, challenge) => err := UpsertChallenge(id, challenge);
        case ResolveChallenge(id, status, hash, payout) => err := ApplyChallengeResolution(id, status, hash, payout);
        case WithdrawChallenge(id, refund) => err := ApplyChallengeWithdrawal(id, refund);
        case UpsertAppeal(id, appeal) => err := UpsertAppeal(id, appeal);
        case AdjudicateAppeal(id, status, hash, uri, refund) => err := ApplyAppealAdjudication(id, status, hash, uri, refund);
      }
    }

    /** One of the loops of the chunk transaction: stops at the first error. */
    method RunGroup(ss: seq<Stmt>) returns (err: Option<StmtError>)
      modifies this
      ensures Exec(old(View()), ss) == if err.None? then Done(View()) else Failed(err.value)
      ensures cursor == old(cursor) && hashes == old(hashes) && deployment == old(deployment)
    {
      hide Effect, Check;
      err := None;
      for i := 0 to |ss|
        invariant err.None? && Exec(old(View()), ss[..i]) == Done(View())
        invariant cursor == old(cursor) && hashes == old(hashes) && deployment == old(deployment)
      {
        assert ss[..i + 1][..i] == ss[..i];
        err := Execute(ss[i]);
        if err.Some? {
          ExecConcat(old(View()), ss[..i + 1], ss[i + 1..]);
          assert ss == ss[..i + 1] + ss[i + 1..];
          return;
        }
      }
      assert ss[..|ss|] == ss;
    }

    /**
      BEGIN, the groups in order, the cursor and the block hash, COMMIT; or ROLLBACK, which leaves
      the database as it was.
    */
    method ApplyChunk(n: Network, from: nat, to: nat) returns (error: Option<SyncError>)
      requires to < |n.chain|
      modifies this
      ensures SyncResult(State(), error) == SyncRuns.ApplyChunk(old(State()), n, from, to)
    {
      hide Exec, Group, KindAt, LogOf;
      var saved := View();
      var es := LogOf(n.chain, from, to + 1);
      var err: Option<StmtError> := None;
      var r := 0;
      NothingRun(saved, es, n.head);
      while r < GROUPS && err.None?
        invariant r <= GROUPS
        invariant err.None? ==> Exec(saved, Groups(es, n.head, r)) == Done(View())
        invariant err.Some? ==> Exec(saved, Groups(es, n.head, GROUPS)) == Failed(err.value)
        invariant cursor == old(cursor) && hashes == old(hashes) && deployment == old(deployment)
      {
        ExecConcat(saved, Groups(es, n.head, r), Group(es, n.head, KindAt(r)));
        var group := BuildGroup(es, n.head, KindAt(r));
        err := RunGroup(group);
        if err.Some? { FailureStays(saved, es, n.head, r + 1, err.value); }
        r := r + 1;
      }
      if err.None? {
        cursor, hashes := Some(to), hashes[to := n.chain[to].hash];
        return None;
      }
      Rollback(saved);
      error := Some(ChunkFailed(err.value));
    }

    lemma {:induction false} FailureStays(t: Tables, es: seq<Event>, h: Head, r: nat, e: StmtError)
      requires r <= GROUPS && Exec(t, Groups(es, h, r)) == Failed(e)
      ensures Exec(t, Groups(es, h, GROUPS)) == Failed(e)
      decreases GROUPS - r
    {
      hide Exec, Group, KindAt;
      if r < GROUPS {
        ExecConcat(t, Groups(es, h, r), Group(es, h, KindAt(r)));
        FailureStays(t, es, h, r + 1, e);
      }
    }

    method RestoreRegistry(saved: Tables)
      modifies `claims, `artifacts, `replications, `decisions, `checkpoints
      ensures claims == saved.claims && artifacts == saved.artifacts && replications == saved.replications
      ensures decisions == saved.decisions && checkpoints == saved.checkpoints
    {
      claims, artifacts, replications := saved.claims, saved.artifacts, saved.replications;
      decisions, checkpoints := saved.decisions, saved.checkpoints;
    }

    method RestoreMarket(saved: Tables)
      modifies `agents, `controllers, `forecasts, `challenges, `appeals
      ensures agents == saved.agents && controllers == saved.controllers
      ensures forecasts == saved.forecasts && challenges == saved.challenges && appeals == saved.appeals
    {
      agents, controllers := saved.agents, saved.controllers;
      forecasts, challenges, appeals := saved.forecasts, saved.challenges, saved.appeals;
    }

    method Rollback(saved: Tables)
      modifies this
      ensures View() == saved && cursor == old(cursor) && hashes == old(hashes) && deployment == old(deployment)
    {
      RestoreRegistry(saved);
      RestoreMarket(saved);
    }

    method EnsureReadModelBaseState(c: Config) returns (error: Option<SyncError>)
      modifies `cursor, `deployment
      ensures SyncResult(State(), error) == EnsureBaseState(old(State()), c)
    {
      if deployment.Some? && deployment.value != (c.chainId, c.deploymentBlock) { return Some(DeploymentMismatch); }
      deployment := Some((c.chainId, c.deploymentBlock));
      if cursor.None? { cursor := Some(Max(0, c.deploymentBlock - 1)); }
      error := None;
    }

    /** One sync run that lives for at most `budget` chunk transactions. */
    method SyncReadModel(c: Config, n: Network, budget: nat) returns (error: Option<SyncError>)
      requires c.batchSize > 0
      modifies this
      ensures SyncResult(State(), error) == Sync(old(State()), c, n, budget)
    {
      hide SyncRuns.ApplyChunk;
      error := EnsureReadModelBaseState(c);
      if error.Some? { return; }
      if cursor.Some? && cursor.value >= c.deploymentBlock {
        var at := cursor.value;
        if at >= |n.chain| { return Some(UnreadableBlock(at)); }
        if at in hashes {
          if hashes[at] != n.chain[at].hash { return Some(ReorgDetected(at, hashes[at], n.chain[at].hash)); }
        } else {
          hashes := hashes[at := n.chain[at].hash];
        }
      }
      ghost var checked := State();
      assert SyncResult(checked, None) == CheckReorg(EnsureBaseState(old(State()), c).store, c, n.chain);
      var from := Max(c.deploymentBlock, (if cursor.Some? then cursor.value else c.deploymentBlock - 1) + 1);
      var latest, left := LatestBlock(n, c), budget;
      ghost var first := from;
      while from <= latest && left > 0
        invariant from >= c.deploymentBlock && from >= first
        invariant latest < |n.chain| || (from == first && from > latest)
        invariant latest < |n.chain| && first <= latest ==>
          Advance(checked, n, c.batchSize, first, latest, budget) == Advance(State(), n, c.batchSize, from, latest, left)
        invariant error.None? && (first > latest ==> State() == checked)
        decreases left
      {
        var to := Min(from + c.batchSize - 1, latest);
        error := ApplyChunk(n, from, to);
        if error.Some? { return; }
        from, left := to + 1, left - 1;
      }
    }
  }
}
