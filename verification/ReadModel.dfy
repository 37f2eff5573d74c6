/**
  The read-model tables and the SQL statements that the projector issues against them
  (src/indexer/store.ts, with the foreign keys of ops/migrations).

  A statement has a `Check` (the error it raises, if any) and an `Effect` (the new tables).
  `Closed*` give each row in closed form from the statements that target it; `NormalForm`
  ties the closed form to running the statements one after the other.
*/
module ReadModel {
  import opened Common

  type Id = nat
  type Text = string

  // ----- rows -----

  datatype ClaimRow = ClaimRow(
    author: Text, domainId: nat, metadataHash: Text, resolutionModule: Text,
    status: nat, revisionOf: Option<Id>, createdAtBlock: nat)

  datatype ArtifactRow = ArtifactRow(
    claimId: Id, artifactType: nat, contentDigest: Text, uri: Text, submitter: Text)

  /** The columns written by a submission. */
  datatype ReplicationBody = ReplicationBody(
    claimId: Id, replicator: Text, agentId: Id, resultHash: Text)

  /** The seven columns that a resolution writes together and a submission leaves alone. */
  datatype Resolution = Resolution(
    outcome: nat, status: nat, confidenceBps: nat, resolverType: nat,
    resolutionHash: Text, evidenceHash: Text, evidenceURI: Text)

  datatype ReplicationRow = ReplicationRow(body: ReplicationBody, resolution: Option<Resolution>)

  datatype DecisionBody = DecisionBody(
    claimId: Id, replicationId: Id, resolutionModule: Text, status: nat, claimStatus: nat,
    confidenceBps: nat, resolutionHash: Text, evidenceHash: Text, resolverType: nat, actor: Text)

  datatype DecisionRow = DecisionRow(body: DecisionBody, createdAt: nat, effective: bool)

  datatype CheckpointRow = CheckpointRow(
    domainId: nat, subjectType: nat, subjectActor: Text, subjectClaimId: Id, subjectAgentId: Id,
    subjectModule: Text, scoreVectorHash: Text, payloadHash: Text, uri: Text)

  datatype AgentRow = AgentRow(
    operator: Text, metadataHash: Text, uri: Text, budgetBalance: nat, reservedBudget: nat,
    spendLimit: nat, active: bool)

  /** The forecast columns that every upsert overwrites. */
  datatype ForecastBody = ForecastBody(
    claimId: Id, forecaster: Text, agentId: Id, commitmentHash: Text, stakeAmount: nat,
    committedAt: nat, revealDeadline: nat, revealed: bool, direction: nat, confidenceBps: nat)

  /** What `getForecast` reports; zero decision ids are already turned into None. */
  datatype ForecastSnapshot = ForecastSnapshot(
    body: ForecastBody, settled: bool,
    effectiveDecisionAtCommit: Option<Id>, resolutionDecision: Option<Id>)

  datatype Settlement = Settlement(finalStatus: nat, matched: bool, payoutAmount: nat)

  /** `outcome` holds final_status, matched and payout_amount, always written together. */
  datatype ForecastRow = ForecastRow(
    body: ForecastBody, settled: bool,
    effectiveDecisionAtCommit: Option<Id>, resolutionDecision: Option<Id>,
    outcome: Option<Settlement>)

  datatype ChallengeSnapshot = ChallengeSnapshot(
    claimId: Id, replicationId: Id, challenger: Text, agentId: Id, evidenceHash: Text,
    evidenceURI: Text, bondAmount: nat, status: nat, resolutionHash: Option<Text>,
    createdAt: nat, resolvedAt: Option<nat>)

  datatype ChallengeRow = ChallengeRow(
    snapshot: ChallengeSnapshot, payoutAmount: Option<nat>, refundedAmount: Option<nat>)

  datatype AppealSnapshot = AppealSnapshot(
    claimId: Id, replicationId: Id, challengeId: Id, appellant: Text, reason: nat,
    filingHash: Text, uri: Text, status: nat, adjudicationHash: Option<Text>,
    adjudicationURI: Option<Text>, bondAmount: nat, createdAt: nat, adjudicatedAt: Option<nat>)

  datatype AppealRow = AppealRow(snapshot: AppealSnapshot, refundedAmount: Option<nat>)

  datatype Tables = Tables(
    claims: map<Id, ClaimRow>,
    artifacts: map<Id, ArtifactRow>,
    replications: map<Id, ReplicationRow>,
    decisions: map<Id, DecisionRow>,
    checkpoints: map<Id, CheckpointRow>,
    agents: map<Id, AgentRow>,
    controllers: map<(Id, Text), bool>,
    forecasts: map<Id, ForecastRow>,
    challenges: map<Id, ChallengeRow>,
    appeals: map<Id, AppealRow>)

  const EmptyTables := Tables(map[], map[], map[], map[], map[], map[], map[], map[], map[], map[])

  // ----- statements -----

  datatype Stmt =
    | UpsertClaim(id: Id, claim: ClaimRow)
    | UpdateClaimStatus(id: Id, status: nat)
    | InsertArtifact(id: Id, artifact: ArtifactRow)
    | UpsertReplication(id: Id, submission: ReplicationBody)
    | ApplyReplicationResolution(id: Id, resolution: Resolution)
    | InsertDecision(id: Id, decision: DecisionBody, createdAt: nat)
    | MarkEffective(claimId: Id, decisionId: Id)
    | InsertCheckpoint(id: Id, checkpoint: CheckpointRow)
    | UpsertAgent(id: Id, agent: AgentRow)
    | UpsertController(agentId: Id, controller: Text, authorized: bool)
    | UpsertForecast(id: Id, forecast: ForecastSnapshot)
    | SettleForecast(id: Id, settledBy: Option<Id>, settlement: Settlement)
    | UpsertChallenge(id: Id, challenge: ChallengeSnapshot)
    | ResolveChallenge(id: Id, status: nat, resolutionHash: Text, payoutAmount: nat)
    | WithdrawChallenge(id: Id, refundedAmount: nat)
    | UpsertAppeal(id: Id, appeal: AppealSnapshot)
    | AdjudicateAppeal(id: Id, status: nat, adjudicationHash: Text, adjudicationURI: Text, refundedAmount: nat)

  datatype Kind =
    | KClaim | KClaimStatus | KArtifact | KReplication | KResolution | KDecision | KEffective
    | KCheckpoint | KAgent | KController | KForecast | KSettlement | KChallenge
    | KChallengeResolution | KChallengeWithdrawal | KAppeal | KAdjudication

  datatype Key = IdKey(id: Id) | PairKey(id: Id, text: Text)

  /** The rows a statement aims at: its kind and its WHERE / conflict key. */
  datatype Target = Target(kind: Kind, key: Key)

  predicate IsKind(s: Stmt, kind: Kind) {
    match kind
    case KClaim => s.UpsertClaim?
    case KClaimStatus => s.UpdateClaimStatus?
    case KArtifact => s.InsertArtifact?
    case KReplication => s.UpsertReplication?
    case KResolution => s.ApplyReplicationResolution?
    case KDecision => s.InsertDecision?
    case KEffective => s.MarkEffective?
    case KCheckpoint => s.InsertCheckpoint?
    case KAgent => s.UpsertAgent?
    case KController => s.UpsertController?
    case KForecast => s.UpsertForecast?
    case KSettlement => s.SettleForecast?
    case KChallenge => s.UpsertChallenge?
    case KChallengeResolution => s.ResolveChallenge?
    case KChallengeWithdrawal => s.WithdrawChallenge?
    case KAppeal => s.UpsertAppeal?
    case KAdjudication => s.AdjudicateAppeal?
  }

  function KeyOf(s: Stmt): Key {
    match s
    case MarkEffective(claimId, _) => IdKey(claimId)
    case UpsertController(agentId, controller, _) => PairKey(agentId, controller)
    case _ => IdKey(s.id)
  }

  predicate Hits(s: Stmt, target: Target) {
    IsKind(s, target.kind) && KeyOf(s) == target.key
  }

  // ----- effects on single rows -----

  /** INSERT … ON CONFLICT of a replication submission: the resolution columns survive. */
  function MergeReplication(row: Option<ReplicationRow>, body: ReplicationBody): ReplicationRow {
    ReplicationRow(body, if row.Some? then row.value.resolution else None)
  }

  /** INSERT … ON CONFLICT of a forecast snapshot: the COALESCE columns are write-once. */
  function MergeForecast(row: Option<ForecastRow>, s: ForecastSnapshot): ForecastRow {
    match row
    case None => ForecastRow(s.body, s.settled, s.effectiveDecisionAtCommit, s.resolutionDecision, None)
    case Some(r) =>
      ForecastRow(s.body, s.settled,
                  Coalesce(r.effectiveDecisionAtCommit, s.effectiveDecisionAtCommit),
                  Coalesce(r.resolutionDecision, s.resolutionDecision),
                  r.outcome)
  }

  function SettledForecast(row: ForecastRow, decision: Option<Id>, settlement: Settlement): ForecastRow {
    row.(resolutionDecision := decision, outcome := Some(settlement), settled := true)
  }

  function MergeChallenge(row: Option<ChallengeRow>, s: ChallengeSnapshot): ChallengeRow {
    match row
    case None => ChallengeRow(s, None, None)
    case Some(r) => ChallengeRow(s, r.payoutAmount, r.refundedAmount)
  }

  function ResolvedChallenge(row: ChallengeRow, status: nat, hash: Text, payout: nat): ChallengeRow {
    row.(snapshot := row.snapshot.(status := status, resolutionHash := Some(hash)), payoutAmount := Some(payout))
  }

  function MergeAppeal(row: Option<AppealRow>, s: AppealSnapshot): AppealRow {
    match row
    case None => AppealRow(s, None)
    case Some(r) => AppealRow(s, r.refundedAmount)
  }

  function AdjudicatedAppeal(row: AppealRow, status: nat, hash: Text, uri: Text, refund: nat): AppealRow {
    row.(snapshot := row.snapshot.(status := status, adjudicationHash := Some(hash), adjudicationURI := Some(uri)),
         refundedAmount := Some(refund))
  }

  /** Both UPDATEs of `markEffectiveResolutionDecision`, on every row of the claim. */
  function MarkedDecisions(m: map<Id, DecisionRow>, claimId: Id, decisionId: Id): map<Id, DecisionRow> {
    map d | d in m :: if m[d].body.claimId == claimId then m[d].(effective := d == decisionId) else m[d]
  }

  // ----- effect and check of one statement -----

  function ClaimStep(m: map<Id, ClaimRow>, s: Stmt): map<Id, ClaimRow> {
    match s
    case UpsertClaim(id, claim) => m[id := claim]
    case UpdateClaimStatus(id, status) => if id in m then m[id := m[id].(status := status)] else m
    case _ => m
  }

  function ArtifactStep(m: map<Id, ArtifactRow>, s: Stmt): map<Id, ArtifactRow> {
    if s.InsertArtifact? && s.id !in m then m[s.id := s.artifact] else m
  }

  function ReplicationStep(m: map<Id, ReplicationRow>, s: Stmt): map<Id, ReplicationRow> {
    match s
    case UpsertReplication(id, body) => m[id := MergeReplication(Lookup(m, id), body)]
    case ApplyReplicationResolution(id, resolution) =>
      if id in m then m[id := m[id].(resolution := Some(resolution))] else m
    case _ => m
  }

  function DecisionStep(m: map<Id, DecisionRow>, s: Stmt): map<Id, DecisionRow> {
    match s
    case InsertDecision(id, decision, createdAt) =>
      if id in m then m else m[id := DecisionRow(decision, createdAt, false)]
    case MarkEffective(claimId, decisionId) => MarkedDecisions(m, claimId, decisionId)
    case _ => m
  }

  function CheckpointStep(m: map<Id, CheckpointRow>, s: Stmt): map<Id, CheckpointRow> {
    if s.InsertCheckpoint? && s.id !in m then m[s.id := s.checkpoint] else m
  }

  function AgentStep(m: map<Id, AgentRow>, s: Stmt): map<Id, AgentRow> {
    if s.UpsertAgent? then m[s.id := s.agent] else m
  }

  function ControllerStep(m: map<(Id, Text), bool>, s: Stmt): map<(Id, Text), bool> {
    if s.UpsertController? then m[(s.agentId, s.controller) := s.authorized] else m
  }

  function ForecastStep(m: map<Id, ForecastRow>, s: Stmt): map<Id, ForecastRow> {
    match s
    case UpsertForecast(id, forecast) => m[id := MergeForecast(Lookup(m, id), forecast)]
    case SettleForecast(id, settledBy, settlement) =>
      if id in m then m[id := SettledForecast(m[id], settledBy, settlement)] else m
    case _ => m
  }

  function ChallengeStep(m: map<Id, ChallengeRow>, s: Stmt): map<Id, ChallengeRow> {
    match s
    case UpsertChallenge(id, challenge) => m[id := MergeChallenge(Lookup(m, id), challenge)]
    case ResolveChallenge(id, status, hash, payout) =>
      if id in m then m[id := ResolvedChallenge(m[id], status, hash, payout)] else m
    case WithdrawChallenge(id, refund) =>
      if id in m then m[id := m[id].(refundedAmount := Some(refund))] else m
    case _ => m
  }

  function AppealStep(m: map<Id, AppealRow>, s: Stmt): map<Id, AppealRow> {
    match s
    case UpsertAppeal(id, appeal) => m[id := MergeAppeal(Lookup(m, id), appeal)]
    case AdjudicateAppeal(id, status, hash, uri, refund) =>
      if id in m then m[id := AdjudicatedAppeal(m[id], status, hash, uri, refund)] else m
    case _ => m
  }

  /** The tables after the statement; an UPDATE without a matching row changes nothing. */
  function Effect(t: Tables, s: Stmt): Tables {
    Tables(ClaimStep(t.claims, s), ArtifactStep(t.artifacts, s), ReplicationStep(t.replications, s),
           DecisionStep(t.decisions, s), CheckpointStep(t.checkpoints, s), AgentStep(t.agents, s),
           ControllerStep(t.controllers, s), ForecastStep(t.forecasts, s),
           ChallengeStep(t.challenges, s), AppealStep(t.appeals, s))
  }

  datatype StmtError =
    | WasNotPresent(kind: Kind)   // the explicit "was not present" / "missing" throws
    | ForeignKey(kind: Kind)      // a REFERENCES constraint of the migrations
    | UniqueReplication           // resolution_decisions.replication_id UNIQUE

  predicate DecisionKnown(t: Tables, d: Option<Id>) {
    d.Some? ==> d.value in t.decisions
  }

  predicate ReplicationDecided(t: Tables, replicationId: Id) {
    exists d :: d in t.decisions && t.decisions[d].body.replicationId == replicationId
  }

  /** The error the statement raises on these tables, if any. */
  function Check(t: Tables, s: Stmt): Option<StmtError> {
    match s
    case UpdateClaimStatus(id, _) =>
      if id in t.claims then None else Some(WasNotPresent(KClaimStatus))
    case InsertArtifact(id, artifact) =>
      if id in t.artifacts || artifact.claimId in t.claims then None else Some(ForeignKey(KArtifact))
    case UpsertReplication(_, body) =>
      if body.claimId in t.claims then None else Some(ForeignKey(KReplication))
    case ApplyReplicationResolution(id, _) =>
      if id in t.replications then None else Some(WasNotPresent(KResolution))
    case InsertDecision(id, decision, _) =>
      if id in t.decisions then None
      else if ReplicationDecided(t, decision.replicationId) then Some(UniqueReplication)
      else if decision.claimId in t.claims && decision.replicationId in t.replications then None
      else Some(ForeignKey(KDecision))
    case MarkEffective(claimId, decisionId) =>
      if decisionId in t.decisions && t.decisions[decisionId].body.claimId == claimId then None
      else Some(WasNotPresent(KEffective))
    case UpsertController(agentId, _, _) =>
      if agentId in t.agents then None else Some(ForeignKey(KController))
    case UpsertForecast(id, forecast) =>
      var row := MergeForecast(Lookup(t.forecasts, id), forecast);
      if row.body.claimId in t.claims && DecisionKnown(t, row.effectiveDecisionAtCommit)
         && DecisionKnown(t, row.resolutionDecision)
      then None else Some(ForeignKey(KForecast))
    case SettleForecast(id, decision, _) =>
      if id !in t.forecasts then Some(WasNotPresent(KSettlement))
      else if DecisionKnown(t, decision) then None else Some(ForeignKey(KSettlement))
    case UpsertChallenge(_, challenge) =>
      if challenge.claimId in t.claims then None else Some(ForeignKey(KChallenge))
    case ResolveChallenge(id, _, _, _) =>
      if id in t.challenges then None else Some(WasNotPresent(KChallengeResolution))
    case WithdrawChallenge(id, _) =>
      if id in t.challenges then None else Some(WasNotPresent(KChallengeWithdrawal))
    case UpsertAppeal(_, appeal) =>
      if appeal.claimId in t.claims then None else Some(ForeignKey(KAppeal))
    case AdjudicateAppeal(id, _, _, _, _) =>
      if id in t.appeals then None else Some(WasNotPresent(KAdjudication))
    case _ => None
  }

  // ----- statement lists -----

  /** One table after the statements, given the effect of one statement on that table. */
  function Run<M>(m: M, ss: seq<Stmt>, step: (M, Stmt) -> M): M {
    if ss == [] then m else step(Run(m, ss[..|ss| - 1], step), ss[|ss| - 1])
  }

  function Effects(t: Tables, ss: seq<Stmt>): Tables {
    Run(t, ss, Effect)
  }

  datatype Outcome = Done(tables: Tables) | Failed(error: StmtError)

  /** Runs statements until one raises an error. */
  function Exec(t: Tables, ss: seq<Stmt>): Outcome {
    if ss == [] then Done(t) else
      match Exec(t, ss[..|ss| - 1])
      case Failed(e) => Failed(e)
      case Done(u) =>
        var s := ss[|ss| - 1];
        var err := Check(u, s);
        if err.Some? then Failed(err.value) else Done(Effect(u, s))
  }

  /** The last statement aimed at the target. */
  function Last(ss: seq<Stmt>, target: Target): (r: Option<Stmt>)
    ensures r.Some? ==> r.value in ss && Hits(r.value, target)
  {
    if ss == [] then None
    else if Hits(ss[|ss| - 1], target) then Some(ss[|ss| - 1])
    else Last(ss[..|ss| - 1], target)
  }

  /** The first statement aimed at the target. */
  function First(ss: seq<Stmt>, target: Target): (r: Option<Stmt>)
    ensures r.Some? ==> r.value in ss && Hits(r.value, target)
  {
    if ss == [] then None
    else
      var r := First(ss[..|ss| - 1], target);
      if r.None? && Hits(ss[|ss| - 1], target) then Some(ss[|ss| - 1]) else r
  }

  /** Statement `a` may not run before statement `b`. */
  predicate Clash(a: Stmt, b: Stmt) {
    match b
    case UpsertClaim(id, _) => a.UpdateClaimStatus? && a.id == id
    case UpsertReplication(id, _) => a.ApplyReplicationResolution? && a.id == id
    case InsertDecision(id, _, _) => a.MarkEffective? && a.decisionId == id
    case UpsertForecast(id, f) =>
      (a.SettleForecast? && a.id == id) || (a.UpsertForecast? && a.id == id && a.forecast != f)
    case UpsertChallenge(id, _) => (a.ResolveChallenge? || a.WithdrawChallenge?) && a.id == id
    case UpsertAppeal(id, _) => a.AdjudicateAppeal? && a.id == id
    case _ => false
  }

  predicate Ordered(ss: seq<Stmt>) {
    forall i, j :: 0 <= i < j < |ss| ==> !Clash(ss[i], ss[j])
  }

  // ----- closed forms -----

  function ClosedClaim(row: Option<ClaimRow>, ss: seq<Stmt>, id: Id): Option<ClaimRow> {
    var up := Last(ss, Target(KClaim, IdKey(id)));
    var st := Last(ss, Target(KClaimStatus, IdKey(id)));
    var base := if up.Some? then Some(up.value.claim) else row;
    if base.Some? && st.Some? then Some(base.value.(status := st.value.status)) else base
  }

  function ClosedArtifact(row: Option<ArtifactRow>, ss: seq<Stmt>, id: Id): Option<ArtifactRow> {
    var ins := First(ss, Target(KArtifact, IdKey(id)));
    if row.None? && ins.Some? then Some(ins.value.artifact) else row
  }

  function ClosedReplication(row: Option<ReplicationRow>, ss: seq<Stmt>, id: Id): Option<ReplicationRow> {
    var up := Last(ss, Target(KReplication, IdKey(id)));
    var res := Last(ss, Target(KResolution, IdKey(id)));
    var base := if up.Some? then Some(MergeReplication(row, up.value.submission)) else row;
    if base.Some? && res.Some? then Some(base.value.(resolution := Some(res.value.resolution))) else base
  }

  function ClosedDecision(row: Option<DecisionRow>, ss: seq<Stmt>, id: Id): Option<DecisionRow> {
    var ins := First(ss, Target(KDecision, IdKey(id)));
    var base := if row.None? && ins.Some?
                then Some(DecisionRow(ins.value.decision, ins.value.createdAt, false)) else row;
    if base.None? then None
    else
      var mark := Last(ss, Target(KEffective, IdKey(base.value.body.claimId)));
      if mark.Some? then Some(base.value.(effective := mark.value.decisionId == id)) else base
  }

  function ClosedCheckpoint(row: Option<CheckpointRow>, ss: seq<Stmt>, id: Id): Option<CheckpointRow> {
    var ins := First(ss, Target(KCheckpoint, IdKey(id)));
    if row.None? && ins.Some? then Some(ins.value.checkpoint) else row
  }

  function ClosedAgent(row: Option<AgentRow>, ss: seq<Stmt>, id: Id): Option<AgentRow> {
    var up := Last(ss, Target(KAgent, IdKey(id)));
    if up.Some? then Some(up.value.agent) else row
  }

  function ClosedController(row: Option<bool>, ss: seq<Stmt>, key: (Id, Text)): Option<bool> {
    var up := Last(ss, Target(KController, PairKey(key.0, key.1)));
    if up.Some? then Some(up.value.authorized) else row
  }

  function ClosedForecast(row: Option<ForecastRow>, ss: seq<Stmt>, id: Id): Option<ForecastRow> {
    var up := Last(ss, Target(KForecast, IdKey(id)));
    var fin := Last(ss, Target(KSettlement, IdKey(id)));
    var base := if up.Some? then Some(MergeForecast(row, up.value.forecast)) else row;
    if base.Some? && fin.Some?
    then Some(SettledForecast(base.value, fin.value.settledBy, fin.value.settlement)) else base
  }

  function ClosedChallenge(row: Option<ChallengeRow>, ss: seq<Stmt>, id: Id): Option<ChallengeRow> {
    Withdrawn(Resolved(Opened(row, Last(ss, Target(KChallenge, IdKey(id)))),
                       Last(ss, Target(KChallengeResolution, IdKey(id)))),
              Last(ss, Target(KChallengeWithdrawal, IdKey(id))))
  }

  function Opened(row: Option<ChallengeRow>, s: Option<Stmt>): Option<ChallengeRow>
    requires s.Some? ==> s.value.UpsertChallenge?
  {
    if s.Some? then Some(MergeChallenge(row, s.value.challenge)) else row
  }

  function Resolved(row: Option<ChallengeRow>, s: Option<Stmt>): Option<ChallengeRow>
    requires s.Some? ==> s.value.ResolveChallenge?
  {
    if row.Some? && s.Some?
    then Some(ResolvedChallenge(row.value, s.value.status, s.value.resolutionHash, s.value.payoutAmount))
    else row
  }

  function Withdrawn(row: Option<ChallengeRow>, s: Option<Stmt>): Option<ChallengeRow>
    requires s.Some? ==> s.value.WithdrawChallenge?
  {
    if row.Some? && s.Some? then Some(row.value.(refundedAmount := Some(s.value.refundedAmount))) else row
  }

  function ClosedAppeal(row: Option<AppealRow>, ss: seq<Stmt>, id: Id): Option<AppealRow> {
    var up := Last(ss, Target(KAppeal, IdKey(id)));
    var adj := Last(ss, Target(KAdjudication, IdKey(id)));
    var base := if up.Some? then Some(MergeAppeal(row, up.value.appeal)) else row;
    if base.Some? && adj.Some?
    then Some(AdjudicatedAppeal(base.value, adj.value.status, adj.value.adjudicationHash,
                                adj.value.adjudicationURI, adj.value.refundedAmount))
    else base
  }
}
