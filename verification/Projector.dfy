/**
  Turning protocol events into statements (src/indexer/projector.ts, `applyChunk`).

  `Project` applies a log one event at a time, in chain order. `BatchStmts` is the transaction
  that `applyChunk` issues for the same events: regrouped by kind, with agents, forecasts,
  challenges and appeals upserted once from the contract state at the head.
*/
module Projector {
  import opened Common
  import opened ReadModel
  import opened NormalForm

  datatype AgentChange =
    | BudgetDeposited | BudgetReserved | BudgetReleased | BudgetConsumed | BudgetWithdrawn
    | SpendLimitUpdated | StatusUpdated

  datatype Event =
    | ClaimCreated(claimId: Id, author: Text, domainId: nat, metadataHash: Text,
                   resolutionModule: Text, blockNumber: nat)
    | ClaimStatusUpdated(claimId: Id, newStatus: nat)
    | ResolutionDecisionRecorded(decisionId: Id, decision: DecisionBody)
    | EffectiveResolutionDecisionUpdated(claimId: Id, decisionId: Id)
    | ArtifactAdded(artifactId: Id, artifact: ArtifactRow)
    | ReplicationSubmitted(replicationId: Id, submission: ReplicationBody)
    | ReplicationResolved(replicationId: Id, resolution: Resolution)
    | AgentRegistered(agentId: Id)
    | AgentControllerAuthorization(agentId: Id, controller: Text, authorized: bool)
    | AgentAccountChanged(change: AgentChange, agentId: Id)
    | ReputationCheckpointPublished(checkpointId: Id, checkpoint: CheckpointRow)
    | ForecastCommitted(forecastId: Id)
    | ForecastRevealed(forecastId: Id)
    | ForecastSettled(forecastId: Id, settledBy: Option<Id>, settlement: Settlement)
    | ChallengeOpened(challengeId: Id)
    | ChallengeResolved(challengeId: Id, status: nat, resolutionHash: Text, payoutAmount: nat)
    | ChallengeWithdrawn(challengeId: Id, refundedAmount: nat)
    | AppealFiled(appealId: Id)
    | AppealAdjudicated(appealId: Id, status: nat, adjudicationHash: Text, adjudicationURI: Text,
                        refundedAmount: nat)

  /** The contract state that the run reads through its provider. */
  datatype Head = Head(
    claimStatus: Id -> nat,
    claimRevisionOf: Id -> Option<Id>,
    decisionCreatedAt: Id -> nat,
    agent: Id -> AgentRow,
    forecast: Id -> ForecastSnapshot,
    challenge: Id -> ChallengeSnapshot,
    appeal: Id -> AppealSnapshot)

  predicate ForecastEvent(e: Event) { e.ForecastCommitted? || e.ForecastRevealed? || e.ForecastSettled? }
  predicate ChallengeEvent(e: Event) { e.ChallengeOpened? || e.ChallengeResolved? || e.ChallengeWithdrawn? }
  predicate AppealEvent(e: Event) { e.AppealFiled? || e.AppealAdjudicated? }
  predicate AgentEvent(e: Event) { e.AgentRegistered? || e.AgentControllerAuthorization? || e.AgentAccountChanged? }

  /** The statements of one event on its own. */
  function Stmts(e: Event, h: Head): seq<Stmt> {
    match e
    case ClaimCreated(id, author, domainId, metadataHash, resolutionModule, blockNumber) =>
      [UpsertClaim(id, ClaimRow(author, domainId, metadataHash, resolutionModule,
                                h.claimStatus(id), h.claimRevisionOf(id), blockNumber))]
    case ClaimStatusUpdated(id, newStatus) => [UpdateClaimStatus(id, newStatus)]
    case ResolutionDecisionRecorded(id, decision) => [InsertDecision(id, decision, h.decisionCreatedAt(id))]
    case EffectiveResolutionDecisionUpdated(claimId, id) => [MarkEffective(claimId, id)]
    case ArtifactAdded(id, artifact) => [InsertArtifact(id, artifact)]
    case ReplicationSubmitted(id, submission) => [UpsertReplication(id, submission)]
    case ReplicationResolved(id, resolution) => [ApplyReplicationResolution(id, resolution)]
    case AgentRegistered(id) => [UpsertAgent(id, h.agent(id))]
    case AgentControllerAuthorization(id, controller, authorized) =>
      [UpsertAgent(id, h.agent(id)), UpsertController(id, controller, authorized)]
    case AgentAccountChanged(_, id) => [UpsertAgent(id, h.agent(id))]
    case ReputationCheckpointPublished(id, checkpoint) => [InsertCheckpoint(id, checkpoint)]
    case ForecastCommitted(id) => [UpsertForecast(id, h.forecast(id))]
    case ForecastRevealed(id) => [UpsertForecast(id, h.forecast(id))]
    case ForecastSettled(id, settledBy, settlement) =>
      [UpsertForecast(id, h.forecast(id)), SettleForecast(id, settledBy, settlement)]
    case ChallengeOpened(id) => [UpsertChallenge(id, h.challenge(id))]
    case ChallengeResolved(id, status, hash, payout) =>
      [UpsertChallenge(id, h.challenge(id)), ResolveChallenge(id, status, hash, payout)]
    case ChallengeWithdrawn(id, refund) =>
      [UpsertChallenge(id, h.challenge(id)), WithdrawChallenge(id, refund)]
    case AppealFiled(id) => [UpsertAppeal(id, h.appeal(id))]
    case AppealAdjudicated(id, status, hash, uri, refund) =>
      [UpsertAppeal(id, h.appeal(id)), AdjudicateAppeal(id, status, hash, uri, refund)]
  }

  /** The simple form: one event after the other. */
  function Project(t: Tables, es: seq<Event>, h: Head): Tables {
    if es == [] then t else Effects(Project(t, es[..|es| - 1], h), Stmts(es[|es| - 1], h))
  }

  function FlatMap<A, B>(xs: seq<A>, f: A -> seq<B>): seq<B> {
    if xs == [] then [] else FlatMap(xs[..|xs| - 1], f) + f(xs[|xs| - 1])
  }

  /** All statements of the log in chain order. */
  function EventStmts(es: seq<Event>, h: Head): seq<Stmt> {
    FlatMap(es, (e: Event) => Stmts(e, h))
  }

  // ----- the transaction of a chunk -----

  function OfKind(ss: seq<Stmt>, kind: Kind): seq<Stmt> {
    if ss == [] then []
    else OfKind(ss[..|ss| - 1], kind) + (if IsKind(ss[|ss| - 1], kind) then [ss[|ss| - 1]] else [])
  }

  /** Insertion of the ids that `pick` selects into a JavaScript Set, in event order. */
  function Touch(ids: seq<Id>, es: seq<Event>, pick: Event -> Option<Id>): seq<Id> {
    if es == [] then ids
    else
      var prior := Touch(ids, es[..|es| - 1], pick);
      var id := pick(es[|es| - 1]);
      if id.Some? && id.value !in prior then prior + [id.value] else prior
  }

  function RegisteredAgent(e: Event): Option<Id> { if e.AgentRegistered? then Some(e.agentId) else None }
  function ControlledAgent(e: Event): Option<Id> { if e.AgentControllerAuthorization? then Some(e.agentId) else None }
  function ChangedAgent(c: AgentChange): Event -> Option<Id> {
    (e: Event) => if e.AgentAccountChanged? && e.change == c then Some(e.agentId) else None
  }
  function CommittedForecast(e: Event): Option<Id> { if e.ForecastCommitted? then Some(e.forecastId) else None }
  function RevealedForecast(e: Event): Option<Id> { if e.ForecastRevealed? then Some(e.forecastId) else None }
  function SettledForecastId(e: Event): Option<Id> { if e.ForecastSettled? then Some(e.forecastId) else None }
  function OpenedChallenge(e: Event): Option<Id> { if e.ChallengeOpened? then Some(e.challengeId) else None }
  function ResolvedChallengeId(e: Event): Option<Id> { if e.ChallengeResolved? then Some(e.challengeId) else None }
  function WithdrawnChallenge(e: Event): Option<Id> { if e.ChallengeWithdrawn? then Some(e.challengeId) else None }
  function FiledAppeal(e: Event): Option<Id> { if e.AppealFiled? then Some(e.appealId) else None }
  function AdjudicatedAppealId(e: Event): Option<Id> { if e.AppealAdjudicated? then Some(e.appealId) else None }

  function TouchedAgents(es: seq<Event>): seq<Id> {
    var controlled := Touch(Touch([], es, RegisteredAgent), es, ControlledAgent);
    var reserved := Touch(Touch(controlled, es, ChangedAgent(BudgetDeposited)), es, ChangedAgent(BudgetReserved));
    var consumed := Touch(Touch(reserved, es, ChangedAgent(BudgetReleased)), es, ChangedAgent(BudgetConsumed));
    var limited := Touch(Touch(consumed, es, ChangedAgent(BudgetWithdrawn)), es, ChangedAgent(SpendLimitUpdated));
    Touch(limited, es, ChangedAgent(StatusUpdated))
  }

  function TouchedForecasts(es: seq<Event>): seq<Id> {
    Touch(Touch(Touch([], es, CommittedForecast), es, RevealedForecast), es, SettledForecastId)
  }

  function TouchedChallenges(es: seq<Event>): seq<Id> {
    Touch(Touch(Touch([], es, OpenedChallenge), es, ResolvedChallengeId), es, WithdrawnChallenge)
  }

  function TouchedAppeals(es: seq<Event>): seq<Id> {
    Touch(Touch([], es, FiledAppeal), es, AdjudicatedAppealId)
  }

  /** The kinds that are upserted once per touched id, from the head. */
  predicate Deduplicated(kind: Kind) {
    kind == KAgent || kind == KForecast || kind == KChallenge || kind == KAppeal
  }

  function Touched(es: seq<Event>, kind: Kind): seq<Id>
    requires Deduplicated(kind)
  {
    match kind
    case KAgent => TouchedAgents(es)
    case KForecast => TouchedForecasts(es)
    case KChallenge => TouchedChallenges(es)
    case KAppeal => TouchedAppeals(es)
  }

  function Upsert(h: Head, kind: Kind, id: Id): Stmt
    requires Deduplicated(kind)
  {
    match kind
    case KAgent => UpsertAgent(id, h.agent(id))
    case KForecast => UpsertForecast(id, h.forecast(id))
    case KChallenge => UpsertChallenge(id, h.challenge(id))
    case KAppeal => UpsertAppeal(id, h.appeal(id))
  }

  function Upserts(ids: seq<Id>, h: Head, kind: Kind): (r: seq<Stmt>)
    requires Deduplicated(kind)
    ensures |r| == |ids| && forall i :: 0 <= i < |ids| ==> r[i] == Upsert(h, kind, ids[i])
  {
    if ids == [] then [] else Upserts(ids[..|ids| - 1], h, kind) + [Upsert(h, kind, ids[|ids| - 1])]
  }

  /** One group of the transaction, in the order its loop issues it. */
  function Group(es: seq<Event>, h: Head, kind: Kind): seq<Stmt> {
    if Deduplicated(kind) then Upserts(Touched(es, kind), h, kind) else OfKind(EventStmts(es, h), kind)
  }

  const GROUPS: nat := 17

  /** The groups in the order `applyChunk` runs them. */
  function KindAt(r: nat): Kind
    requires r < GROUPS
  {
    if r < 8 then
      if r == 0 then KClaim else if r == 1 then KClaimStatus else if r == 2 then KArtifact
      else if r == 3 then KReplication else if r == 4 then KResolution else if r == 5 then KDecision
      else if r == 6 then KEffective else KCheckpoint
    else
      if r == 8 then KAgent else if r == 9 then KController else if r == 10 then KForecast
      else if r == 11 then KSettlement else if r == 12 then KChallenge
      else if r == 13 then KChallengeResolution else if r == 14 then KChallengeWithdrawal
      else if r == 15 then KAppeal else KAdjudication
  }

  function Concat<B>(n: nat, f: nat -> seq<B>): seq<B> {
    if n == 0 then [] else Concat(n - 1, f) + f(n - 1)
  }

  function GroupAt(es: seq<Event>, h: Head): nat -> seq<Stmt> {
    (r: nat) => if r < GROUPS then Group(es, h, KindAt(r)) else []
  }

  /** The first `n` groups. */
  function Groups(es: seq<Event>, h: Head, n: nat): seq<Stmt> {
    Concat(n, GroupAt(es, h))
  }

  function BatchStmts(es: seq<Event>, h: Head): seq<Stmt> {
    Groups(es, h, GROUPS)
  }

  // ----- well-formed logs -----

  /** No chain emits event `a` before event `b`: creation comes first, a terminal event last. */
  predicate EventClash(a: Event, b: Event) {
    match b
    case ClaimCreated(id, _, _, _, _, _) => a.ClaimStatusUpdated? && a.claimId == id
    case ReplicationSubmitted(id, _) => a.ReplicationResolved? && a.replicationId == id
    case ResolutionDecisionRecorded(id, _) => a.EffectiveResolutionDecisionUpdated? && a.decisionId == id
    case ForecastCommitted(id) => a.ForecastSettled? && a.forecastId == id
    case ForecastRevealed(id) => a.ForecastSettled? && a.forecastId == id
    case ForecastSettled(id, _, _) => a.ForecastSettled? && a.forecastId == id
    case ChallengeOpened(id) => (a.ChallengeResolved? || a.ChallengeWithdrawn?) && a.challengeId == id
    case ChallengeResolved(id, _, _, _) => (a.ChallengeResolved? || a.ChallengeWithdrawn?) && a.challengeId == id
    case ChallengeWithdrawn(id, _) => (a.ChallengeResolved? || a.ChallengeWithdrawn?) && a.challengeId == id
    case AppealFiled(id) => a.AppealAdjudicated? && a.appealId == id
    case AppealAdjudicated(id, _, _, _, _) => a.AppealAdjudicated? && a.appealId == id
    case _ => false
  }

  predicate OrderedLog(es: seq<Event>) {
    forall i, j :: 0 <= i < j < |es| ==> !EventClash(es[i], es[j])
  }

  // ----- lists of statements -----

  lemma {:induction false} LastOfConcat(a: seq<Stmt>, b: seq<Stmt>, g: Target)
    ensures Last(a + b, g) == if Last(b, g).Some? then Last(b, g) else Last(a, g)
  {
    if b == [] {
      assert a + b == a;
    } else {
      assert (a + b)[..|a + b| - 1] == a + b[..|b| - 1];
      LastOfConcat(a, b[..|b| - 1], g);
    }
  }

  lemma {:induction false} FirstOfConcat(a: seq<Stmt>, b: seq<Stmt>, g: Target)
    ensures First(a + b, g) == if First(a, g).Some? then First(a, g) else First(b, g)
  {
    if b == [] {
      assert a + b == a;
    } else {
      assert (a + b)[..|a + b| - 1] == a + b[..|b| - 1];
      FirstOfConcat(a, b[..|b| - 1], g);
    }
  }

  lemma {:induction false} NoHits(ss: seq<Stmt>, g: Target)
    requires forall s :: s in ss ==> !Hits(s, g)
    ensures Last(ss, g) == None && First(ss, g) == None
  {
    if ss != [] { NoHits(ss[..|ss| - 1], g); }
  }

  lemma {:induction false} SomeHit(ss: seq<Stmt>, g: Target, s: Stmt)
    requires s in ss && Hits(s, g)
    ensures Last(ss, g).Some? && First(ss, g).Some?
  {
    if s != ss[|ss| - 1] { SomeHit(ss[..|ss| - 1], g, s); }
    else if First(ss[..|ss| - 1], g).Some? {}
  }

  lemma {:induction false} OfKindMembers(ss: seq<Stmt>, kind: Kind)
    ensures forall s :: s in OfKind(ss, kind) <==> s in ss && IsKind(s, kind)
  {
    if ss != [] {
      OfKindMembers(ss[..|ss| - 1], kind);
      assert ss == ss[..|ss| - 1] + [ss[|ss| - 1]];
    }
  }

  lemma {:induction false} OfKindKeepsEnds(ss: seq<Stmt>, g: Target)
    ensures Last(OfKind(ss, g.kind), g) == Last(ss, g)
    ensures First(OfKind(ss, g.kind), g) == First(ss, g)
  {
    if ss != [] {
      var init, s := ss[..|ss| - 1], ss[|ss| - 1];
      OfKindKeepsEnds(init, g);
      if IsKind(s, g.kind) {
        var f := OfKind(ss, g.kind);
        assert f[..|f| - 1] == OfKind(init, g.kind);
      } else {
        assert OfKind(ss, g.kind) == OfKind(init, g.kind);
      }
    }
  }

  lemma {:induction false} FlatMapConcat<A, B>(a: seq<A>, b: seq<A>, f: A -> seq<B>)
    ensures FlatMap(a + b, f) == FlatMap(a, f) + FlatMap(b, f)
  {
    if b == [] {
      assert a + b == a;
    } else {
      assert (a + b)[..|a + b| - 1] == a + b[..|b| - 1];
      FlatMapConcat(a, b[..|b| - 1], f);
    }
  }

  lemma EventStmtsConcat(a: seq<Event>, b: seq<Event>, h: Head)
    ensures EventStmts(a + b, h) == EventStmts(a, h) + EventStmts(b, h)
  {
    FlatMapConcat(a, b, (e: Event) => Stmts(e, h));
  }

  lemma {:induction false} RunConcat<M>(m: M, a: seq<Stmt>, b: seq<Stmt>, step: (M, Stmt) -> M)
    ensures Run(m, a + b, step) == Run(Run(m, a, step), b, step)
  {
    if b == [] {
      assert a + b == a;
    } else {
      assert (a + b)[..|a + b| - 1] == a + b[..|b| - 1];
      RunConcat(m, a, b[..|b| - 1], step);
    }
  }

  /** Folding the log one event at a time is running all its statements in chain order. */
  lemma {:induction false} ProjectRuns(t: Tables, es: seq<Event>, h: Head)
    ensures Project(t, es, h) == Effects(t, EventStmts(es, h))
  {
    if es != [] {
      ProjectRuns(t, es[..|es| - 1], h);
      RunConcat(t, EventStmts(es[..|es| - 1], h), Stmts(es[|es| - 1], h), Effect);
    }
  }

  lemma ProjectConcat(t: Tables, a: seq<Event>, b: seq<Event>, h: Head)
    ensures Project(t, a + b, h) == Project(Project(t, a, h), b, h)
  {
    ProjectRuns(t, a + b, h);
    ProjectRuns(t, a, h);
    ProjectRuns(Project(t, a, h), b, h);
    EventStmtsConcat(a, b, h);
    RunConcat(t, EventStmts(a, h), EventStmts(b, h), Effect);
  }

  // ----- both orders issue an ordered list with the same ends -----

  lemma {:induction false} FlatMapMember<A, B>(xs: seq<A>, f: A -> seq<B>, y: B) returns (i: nat)
    requires y in FlatMap(xs, f)
    ensures i < |xs| && y in f(xs[i])
  {
    if y in f(xs[|xs| - 1]) { i := |xs| - 1; } else { i := FlatMapMember(xs[..|xs| - 1], f, y); }
  }

  lemma {:induction false} FlatMapContains<A, B>(xs: seq<A>, f: A -> seq<B>, i: nat, y: B)
    requires i < |xs| && y in f(xs[i])
    ensures y in FlatMap(xs, f)
  {
    if i < |xs| - 1 { FlatMapContains(xs[..|xs| - 1], f, i, y); }
  }

  /** The event that issued a statement. */
  lemma SourceOf(es: seq<Event>, h: Head, s: Stmt) returns (i: nat)
    requires s in EventStmts(es, h)
    ensures i < |es| && s in Stmts(es[i], h)
  {
    i := FlatMapMember(es, (e: Event) => Stmts(e, h), s);
  }

  lemma Issued(es: seq<Event>, h: Head, i: nat, s: Stmt)
    requires i < |es| && s in Stmts(es[i], h)
    ensures s in EventStmts(es, h)
  {
    FlatMapContains(es, (e: Event) => Stmts(e, h), i, s);
  }

  lemma OrderedConcat(a: seq<Stmt>, b: seq<Stmt>)
    requires Ordered(a) && Ordered(b)
    requires forall x, y :: x in a && y in b ==> !Clash(x, y)
    ensures Ordered(a + b)
  {
    forall i, j | 0 <= i < j < |a + b| ensures !Clash((a + b)[i], (a + b)[j]) {
      if i < |a| <= j {
        assert (a + b)[i] in a && (a + b)[j] in b;
      }
    }
  }

  /** The event that issues a statement of the claim side, or a terminal one. */
  lemma OriginOf(e: Event, h: Head, s: Stmt)
    requires s in Stmts(e, h)
    ensures s.UpsertClaim? ==> e.ClaimCreated? && e.claimId == s.id
    ensures s.UpdateClaimStatus? ==> e.ClaimStatusUpdated? && e.claimId == s.id
    ensures s.UpsertReplication? ==> e.ReplicationSubmitted? && e.replicationId == s.id
    ensures s.ApplyReplicationResolution? ==> e.ReplicationResolved? && e.replicationId == s.id
    ensures s.InsertDecision? ==> e.ResolutionDecisionRecorded? && e.decisionId == s.id
    ensures s.MarkEffective? ==> e.EffectiveResolutionDecisionUpdated? && e.decisionId == s.decisionId
    ensures s.SettleForecast? ==> e.ForecastSettled? && e.forecastId == s.id
    ensures s.ResolveChallenge? ==> e.ChallengeResolved? && e.challengeId == s.id
    ensures s.WithdrawChallenge? ==> e.ChallengeWithdrawn? && e.challengeId == s.id
    ensures s.AdjudicateAppeal? ==> e.AppealAdjudicated? && e.appealId == s.id
  {
  }

  lemma StmtsDoNotClash(a: Event, b: Event, h: Head, x: Stmt, y: Stmt)
    requires !EventClash(a, b) && x in Stmts(a, h) && y in Stmts(b, h)
    ensures !Clash(x, y)
  {
    hide Stmts;
    OriginOf(a, h, x);
    OriginOf(b, h, y);
    UpsertsReadTheHead(a, h, x);
    UpsertsReadTheHead(b, h, y);
  }

  lemma UpsertsReadTheHead(e: Event, h: Head, s: Stmt)
    requires s in Stmts(e, h)
    ensures s.UpsertAgent? ==> AgentEvent(e) && e.agentId == s.id && s.agent == h.agent(s.id)
    ensures s.UpsertForecast? ==> ForecastEvent(e) && e.forecastId == s.id && s.forecast == h.forecast(s.id)
    ensures s.UpsertChallenge? ==> ChallengeEvent(e) && e.challengeId == s.id && s.challenge == h.challenge(s.id)
    ensures s.UpsertAppeal? ==> AppealEvent(e) && e.appealId == s.id && s.appeal == h.appeal(s.id)
  {
  }

  lemma {:induction false} EventStmtsOrdered(es: seq<Event>, h: Head)
    requires OrderedLog(es)
    ensures Ordered(EventStmts(es, h))
  {
    if es != [] {
      var init, e := es[..|es| - 1], es[|es| - 1];
      EventStmtsOrdered(init, h);
      forall x, y | x in EventStmts(init, h) && y in Stmts(e, h) ensures !Clash(x, y) {
        var i := SourceOf(init, h, x);
        assert !EventClash(es[i], es[|es| - 1]);
        StmtsDoNotClash(init[i], e, h, x, y);
      }
      assert Ordered(Stmts(e, h));
      OrderedConcat(EventStmts(init, h), Stmts(e, h));
    }
  }

  predicate Distinct(ids: seq<Id>) {
    forall i, j :: 0 <= i < j < |ids| ==> ids[i] != ids[j]
  }

  lemma {:induction false} TouchMembers(ids: seq<Id>, es: seq<Event>, pick: Event -> Option<Id>)
    requires Distinct(ids)
    ensures Distinct(Touch(ids, es, pick))
    ensures forall id :: id in Touch(ids, es, pick) <==> id in ids || exists i :: 0 <= i < |es| && pick(es[i]) == Some(id)
  {
    if es != [] {
      var init := es[..|es| - 1];
      TouchMembers(ids, init, pick);
      forall id ensures id in Touch(ids, es, pick) <==> id in ids || exists i :: 0 <= i < |es| && pick(es[i]) == Some(id) {
        if i :| 0 <= i < |es| && pick(es[i]) == Some(id) {
          assert i < |es| - 1 ==> pick(init[i]) == Some(id);
        }
        if i :| 0 <= i < |init| && pick(init[i]) == Some(id) {
          assert pick(es[i]) == Some(id);
        }
      }
    }
  }

  lemma AgentsTouched(es: seq<Event>)
    ensures Distinct(TouchedAgents(es))
    ensures forall id :: id in TouchedAgents(es) <==> exists i :: 0 <= i < |es| && AgentEvent(es[i]) && es[i].agentId == id
  {
    TouchMembers([], es, RegisteredAgent);
    var a := Touch([], es, RegisteredAgent);
    TouchMembers(a, es, ControlledAgent);
    var b := Touch(a, es, ControlledAgent);
    TouchMembers(b, es, ChangedAgent(BudgetDeposited));
    var c := Touch(b, es, ChangedAgent(BudgetDeposited));
    TouchMembers(c, es, ChangedAgent(BudgetReserved));
    var d := Touch(c, es, ChangedAgent(BudgetReserved));
    TouchMembers(d, es, ChangedAgent(BudgetReleased));
    var e := Touch(d, es, ChangedAgent(BudgetReleased));
    TouchMembers(e, es, ChangedAgent(BudgetConsumed));
    var f := Touch(e, es, ChangedAgent(BudgetConsumed));
    TouchMembers(f, es, ChangedAgent(BudgetWithdrawn));
    var g := Touch(f, es, ChangedAgent(BudgetWithdrawn));
    TouchMembers(g, es, ChangedAgent(SpendLimitUpdated));
    var k := Touch(g, es, ChangedAgent(SpendLimitUpdated));
    TouchMembers(k, es, ChangedAgent(StatusUpdated));
    forall id, i | 0 <= i < |es| && AgentEvent(es[i]) && es[i].agentId == id ensures id in TouchedAgents(es) {
      if es[i].AgentAccountChanged? { assert ChangedAgent(es[i].change)(es[i]) == Some(id); }
      else if es[i].AgentRegistered? { assert RegisteredAgent(es[i]) == Some(id); }
      else { assert ControlledAgent(es[i]) == Some(id); }
    }
  }

  lemma ForecastsTouched(es: seq<Event>)
    ensures Distinct(TouchedForecasts(es))
    ensures forall id :: id in TouchedForecasts(es) <==> exists i :: 0 <= i < |es| && ForecastEvent(es[i]) && es[i].forecastId == id
  {
    TouchMembers([], es, CommittedForecast);
    var a := Touch([], es, CommittedForecast);
    TouchMembers(a, es, RevealedForecast);
    TouchMembers(Touch(a, es, RevealedForecast), es, SettledForecastId);
    forall id, i | 0 <= i < |es| && ForecastEvent(es[i]) && es[i].forecastId == id ensures id in TouchedForecasts(es) {
      assert CommittedForecast(es[i]) == Some(id) || RevealedForecast(es[i]) == Some(id) || SettledForecastId(es[i]) == Some(id);
    }
  }

  lemma ChallengesTouched(es: seq<Event>)
    ensures Distinct(TouchedChallenges(es))
    ensures forall id :: id in TouchedChallenges(es) <==> exists i :: 0 <= i < |es| && ChallengeEvent(es[i]) && es[i].challengeId == id
  {
    TouchMembers([], es, OpenedChallenge);
    var a := Touch([], es, OpenedChallenge);
    TouchMembers(a, es, ResolvedChallengeId);
    TouchMembers(Touch(a, es, ResolvedChallengeId), es, WithdrawnChallenge);
    forall id, i | 0 <= i < |es| && ChallengeEvent(es[i]) && es[i].challengeId == id ensures id in TouchedChallenges(es) {
      assert OpenedChallenge(es[i]) == Some(id) || ResolvedChallengeId(es[i]) == Some(id) || WithdrawnChallenge(es[i]) == Some(id);
    }
  }

  lemma AppealsTouched(es: seq<Event>)
    ensures Distinct(TouchedAppeals(es))
    ensures forall id :: id in TouchedAppeals(es) <==> exists i :: 0 <= i < |es| && AppealEvent(es[i]) && es[i].appealId == id
  {
    TouchMembers([], es, FiledAppeal);
    TouchMembers(Touch([], es, FiledAppeal), es, AdjudicatedAppealId);
    forall id, i | 0 <= i < |es| && AppealEvent(es[i]) && es[i].appealId == id ensures id in TouchedAppeals(es) {
      assert FiledAppeal(es[i]) == Some(id) || AdjudicatedAppealId(es[i]) == Some(id);
    }
  }

  /** The id whose upsert the event causes. */
  function TouchedBy(e: Event, kind: Kind): Option<Id>
    requires Deduplicated(kind)
  {
    match kind
    case KAgent => if AgentEvent(e) then Some(e.agentId) else None
    case KForecast => if ForecastEvent(e) then Some(e.forecastId) else None
    case KChallenge => if ChallengeEvent(e) then Some(e.challengeId) else None
    case KAppeal => if AppealEvent(e) then Some(e.appealId) else None
  }

  lemma TouchedIds(es: seq<Event>, kind: Kind)
    requires Deduplicated(kind)
    ensures Distinct(Touched(es, kind))
    ensures forall id :: id in Touched(es, kind) <==> exists i :: 0 <= i < |es| && TouchedBy(es[i], kind) == Some(id)
  {
    match kind {
      case KAgent => AgentsTouched(es);
      case KForecast => ForecastsTouched(es);
      case KChallenge => ChallengesTouched(es);
      case KAppeal => AppealsTouched(es);
    }
  }

  lemma UpsertIssued(e: Event, h: Head, kind: Kind, s: Stmt)
    requires Deduplicated(kind)
    ensures s in Stmts(e, h) && IsKind(s, kind) <==>
            TouchedBy(e, kind).Some? && s == Upsert(h, kind, TouchedBy(e, kind).value)
  {
  }

  /** A group holds exactly the statements of its kind that the events issue. */
  lemma GroupMembers(es: seq<Event>, h: Head, kind: Kind)
    ensures forall s :: s in Group(es, h, kind) <==> s in EventStmts(es, h) && IsKind(s, kind)
  {
    if Deduplicated(kind) {
      TouchedIds(es, kind);
      var ids, group := Touched(es, kind), Group(es, h, kind);
      forall s ensures s in group <==> s in EventStmts(es, h) && IsKind(s, kind) {
        if s in EventStmts(es, h) && IsKind(s, kind) {
          var i := SourceOf(es, h, s);
          UpsertIssued(es[i], h, kind, s);
          assert TouchedBy(es[i], kind).value in ids;
          var p :| 0 <= p < |ids| && ids[p] == TouchedBy(es[i], kind).value;
          assert group[p] == s;
        }
        if s in group {
          var p :| 0 <= p < |group| && group[p] == s;
          assert ids[p] in ids;
          var i :| 0 <= i < |es| && TouchedBy(es[i], kind) == Some(ids[p]);
          UpsertIssued(es[i], h, kind, s);
          Issued(es, h, i, s);
        }
      }
    } else {
      OfKindMembers(EventStmts(es, h), kind);
    }
  }

  /** Under one head, at most one upsert can be aimed at a target. */
  lemma UpsertsAgree(es: seq<Event>, h: Head, g: Target, x: Stmt, y: Stmt)
    requires Deduplicated(g.kind) && x in EventStmts(es, h) && y in EventStmts(es, h) && Hits(x, g) && Hits(y, g)
    ensures x == y
  {
    var i := SourceOf(es, h, x);
    UpsertsReadTheHead(es[i], h, x);
    var j := SourceOf(es, h, y);
    UpsertsReadTheHead(es[j], h, y);
  }

  lemma GroupKeepsEnds(es: seq<Event>, h: Head, g: Target)
    ensures Last(Group(es, h, g.kind), g) == Last(EventStmts(es, h), g)
    ensures First(Group(es, h, g.kind), g) == First(EventStmts(es, h), g)
  {
    var all, group := EventStmts(es, h), Group(es, h, g.kind);
    if Deduplicated(g.kind) {
      GroupMembers(es, h, g.kind);
      if s :| s in all && Hits(s, g) {
        SomeHit(all, g, s);
        SomeHit(group, g, s);
        UpsertsAgree(es, h, g, s, Last(all, g).value);
        UpsertsAgree(es, h, g, s, First(all, g).value);
        UpsertsAgree(es, h, g, s, Last(group, g).value);
        UpsertsAgree(es, h, g, s, First(group, g).value);
      } else {
        NoHits(all, g);
        NoHits(group, g);
      }
    } else {
      OfKindKeepsEnds(all, g);
    }
  }

  function Rank(kind: Kind): (r: nat)
    ensures r < GROUPS && KindAt(r) == kind
  {
    match kind
    case KClaim => 0
    case KClaimStatus => 1
    case KArtifact => 2
    case KReplication => 3
    case KResolution => 4
    case KDecision => 5
    case KEffective => 6
    case KCheckpoint => 7
    case KAgent => 8
    case KController => 9
    case KForecast => 10
    case KSettlement => 11
    case KChallenge => 12
    case KChallengeResolution => 13
    case KChallengeWithdrawal => 14
    case KAppeal => 15
    case KAdjudication => 16
  }

  lemma RankInjective(i: nat, kind: Kind)
    requires i < GROUPS && KindAt(i) == kind
    ensures Rank(kind) == i
  {
  }

  /** The statements in the first `n` groups have one of the first `n` kinds. */
  lemma {:induction false} GroupsMembers(es: seq<Event>, h: Head, n: nat, s: Stmt)
    requires n <= GROUPS && s in Groups(es, h, n)
    ensures s in EventStmts(es, h) && exists k :: IsKind(s, k) && Rank(k) < n
  {
    if n > 0 {
      var kind := KindAt(n - 1);
      RankInjective(n - 1, kind);
      GroupMembers(es, h, kind);
      if s in Groups(es, h, n - 1) { GroupsMembers(es, h, n - 1, s); }
      else { assert s in Group(es, h, kind); assert IsKind(s, kind); }
    }
  }

  lemma OneKind(s: Stmt, j: Kind, k: Kind)
    requires IsKind(s, j) && IsKind(s, k)
    ensures j == k
  {
  }

  lemma {:induction false} GroupsKeepEnds(es: seq<Event>, h: Head, n: nat, g: Target)
    requires n <= GROUPS
    ensures Last(Groups(es, h, n), g) == if Rank(g.kind) < n then Last(EventStmts(es, h), g) else None
    ensures First(Groups(es, h, n), g) == if Rank(g.kind) < n then First(EventStmts(es, h), g) else None
  {
    if n > 0 {
      var kind := KindAt(n - 1);
      RankInjective(n - 1, kind);
      GroupsKeepEnds(es, h, n - 1, g);
      LastOfConcat(Groups(es, h, n - 1), Group(es, h, kind), g);
      FirstOfConcat(Groups(es, h, n - 1), Group(es, h, kind), g);
      if kind == g.kind {
        GroupKeepsEnds(es, h, g);
      } else {
        GroupMembers(es, h, kind);
        forall s | s in Group(es, h, kind) ensures !Hits(s, g) {
          if IsKind(s, g.kind) { OneKind(s, kind, g.kind); }
        }
        NoHits(Group(es, h, kind), g);
      }
    }
  }

  /** Only a statement of a later group may not run before an earlier one. */
  lemma ClashRank(a: Stmt, b: Stmt, j: Kind, k: Kind)
    requires Clash(a, b) && IsKind(a, j) && IsKind(b, k)
    ensures Rank(j) > Rank(k) || (j == k == KForecast && a.id == b.id && a.forecast != b.forecast)
  {
  }

  lemma GroupOrdered(es: seq<Event>, h: Head, kind: Kind)
    ensures Ordered(Group(es, h, kind))
  {
    GroupMembers(es, h, kind);
    var group := Group(es, h, kind);
    forall i, j | 0 <= i < j < |group| ensures !Clash(group[i], group[j]) {
      assert group[i] in group && group[j] in group;
      if Clash(group[i], group[j]) {
        ClashRank(group[i], group[j], kind, kind);
        assert false;
      }
    }
  }

  lemma {:induction false} GroupsOrdered(es: seq<Event>, h: Head, n: nat)
    requires n <= GROUPS
    ensures Ordered(Groups(es, h, n))
  {
    if n > 0 {
      var kind := KindAt(n - 1);
      RankInjective(n - 1, kind);
      GroupsOrdered(es, h, n - 1);
      GroupOrdered(es, h, kind);
      GroupMembers(es, h, kind);
      forall x, y | x in Groups(es, h, n - 1) && y in Group(es, h, kind) ensures !Clash(x, y) {
        GroupsMembers(es, h, n - 1, x);
        var k :| IsKind(x, k) && Rank(k) < n - 1;
        if Clash(x, y) { ClashRank(x, y, k, kind); }
      }
      OrderedConcat(Groups(es, h, n - 1), Group(es, h, kind));
    }
  }

  /**
    Regrouping is invisible: the chunk transaction, run on any tables, leaves exactly what the
    same events leave when they are applied one at a time in chain order.
  */
  lemma BatchIsProjection(t: Tables, es: seq<Event>, h: Head)
    requires OrderedLog(es)
    ensures Effects(t, BatchStmts(es, h)) == Project(t, es, h)
  {
    var all, batch := EventStmts(es, h), BatchStmts(es, h);
    EventStmtsOrdered(es, h);
    GroupsOrdered(es, h, GROUPS);
    forall g: Target ensures First(all, g) == First(batch, g) && Last(all, g) == Last(batch, g) {
      GroupsKeepEnds(es, h, GROUPS, g);
    }
    RegroupedRun(t, all, batch);
    ProjectRuns(t, es, h);
  }
}
