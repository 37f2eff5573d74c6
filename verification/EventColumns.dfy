/**
  What the read model holds after a log, column by column, from the events' own fields and the
  contract reads. The rows are described by the first or last event of a kind, without statements:
  an independent account of `applyChunk` in src/indexer/projector.ts and of the merges in
  src/indexer/store.ts.
*/
module EventColumns {
  import opened Common
  import opened ReadModel
  import opened Projector
  import opened LogColumns
  import opened SyncRuns
  import opened ReplayRuns
  import ChunkOutcome
  import NormalForm

  /** What `pick` selects of the last event from which it selects anything. */
  function LastOf<T>(es: seq<Event>, pick: Event -> Option<T>): Option<T> {
    if es == [] then None
    else if pick(es[|es| - 1]).Some? then pick(es[|es| - 1]) else LastOf(es[..|es| - 1], pick)
  }

  function FirstOf<T>(es: seq<Event>, pick: Event -> Option<T>): Option<T> {
    if es == [] then None
    else
      var prior := FirstOf(es[..|es| - 1], pick);
      if prior.Some? then prior else pick(es[|es| - 1])
  }

  lemma {:induction false} NothingPicked<T>(es: seq<Event>, pick: Event -> Option<T>)
    requires forall i :: 0 <= i < |es| ==> pick(es[i]).None?
    ensures LastOf(es, pick).None?
  {
    if es != [] { NothingPicked(es[..|es| - 1], pick); }
  }

  // ----- what the events say -----

  function Flag(a: Id, k: Text): Event -> Option<bool> {
    (e: Event) => if e.AgentControllerAuthorization? && e.agentId == a && e.controller == k then Some(e.authorized) else None
  }

  function Added(id: Id): Event -> Option<ArtifactRow> {
    (e: Event) => if e.ArtifactAdded? && e.artifactId == id then Some(e.artifact) else None
  }

  function Published(id: Id): Event -> Option<CheckpointRow> {
    (e: Event) => if e.ReputationCheckpointPublished? && e.checkpointId == id then Some(e.checkpoint) else None
  }

  function AgentTouched(id: Id): Event -> Option<Id> {
    (e: Event) => if (e.AgentRegistered? || e.AgentControllerAuthorization? || e.AgentAccountChanged?) && e.agentId == id then Some(id) else None
  }

  datatype Creation = Creation(author: Text, domainId: nat, metadataHash: Text, resolutionModule: Text, block: nat)

  function Created(id: Id): Event -> Option<Creation> {
    (e: Event) => if e.ClaimCreated? && e.claimId == id
                  then Some(Creation(e.author, e.domainId, e.metadataHash, e.resolutionModule, e.blockNumber)) else None
  }

  function NewStatus(id: Id): Event -> Option<nat> {
    (e: Event) => if e.ClaimStatusUpdated? && e.claimId == id then Some(e.newStatus) else None
  }

  function SubmittedBody(id: Id): Event -> Option<ReplicationBody> {
    (e: Event) => if e.ReplicationSubmitted? && e.replicationId == id then Some(e.submission) else None
  }

  function ResolvedAs(id: Id): Event -> Option<Resolution> {
    (e: Event) => if e.ReplicationResolved? && e.replicationId == id then Some(e.resolution) else None
  }

  function RecordedBody(id: Id): Event -> Option<DecisionBody> {
    (e: Event) => if e.ResolutionDecisionRecorded? && e.decisionId == id then Some(e.decision) else None
  }

  /** The decision that an event makes the effective one of the claim. */
  function EffectiveFor(claimId: Id): Event -> Option<Id> {
    (e: Event) => if e.EffectiveResolutionDecisionUpdated? && e.claimId == claimId then Some(e.decisionId) else None
  }

  function ForecastTouched(id: Id): Event -> Option<Id> {
    (e: Event) => if (e.ForecastCommitted? || e.ForecastRevealed? || e.ForecastSettled?) && e.forecastId == id then Some(id) else None
  }

  function SettledAs(id: Id): Event -> Option<(Option<Id>, Settlement)> {
    (e: Event) => if e.ForecastSettled? && e.forecastId == id then Some((e.settledBy, e.settlement)) else None
  }

  function ChallengeTouched(id: Id): Event -> Option<Id> {
    (e: Event) => if (e.ChallengeOpened? || e.ChallengeResolved? || e.ChallengeWithdrawn?) && e.challengeId == id then Some(id) else None
  }

  function ResolvedWith(id: Id): Event -> Option<(nat, Text, nat)> {
    (e: Event) => if e.ChallengeResolved? && e.challengeId == id then Some((e.status, e.resolutionHash, e.payoutAmount)) else None
  }

  function Refunded(id: Id): Event -> Option<nat> {
    (e: Event) => if e.ChallengeWithdrawn? && e.challengeId == id then Some(e.refundedAmount) else None
  }

  function AppealTouched(id: Id): Event -> Option<Id> {
    (e: Event) => if (e.AppealFiled? || e.AppealAdjudicated?) && e.appealId == id then Some(id) else None
  }

  function AdjudicatedWith(id: Id): Event -> Option<(nat, Text, Text, nat)> {
    (e: Event) => if e.AppealAdjudicated? && e.appealId == id
                  then Some((e.status, e.adjudicationHash, e.adjudicationURI, e.refundedAmount)) else None
  }

  // ----- the rows that follow -----

  predicate SameButStatus(a: ClaimRow, b: ClaimRow) {
    && a.author == b.author && a.domainId == b.domainId && a.metadataHash == b.metadataHash
    && a.resolutionModule == b.resolutionModule && a.revisionOf == b.revisionOf && a.createdAtBlock == b.createdAtBlock
  }

  /** The last creation, read with the head; then the last status update. */
  predicate ClaimHolds(was: Option<ClaimRow>, now: Option<ClaimRow>, es: seq<Event>, h: Head, id: Id) {
    var c, st := LastOf(es, Created(id)), LastOf<nat>(es, NewStatus(id));
    if c.None? && was.None? then now.None?
    else
      && now.Some?
      && (if c.Some? then
            && now.value.author == c.value.author && now.value.domainId == c.value.domainId
            && now.value.metadataHash == c.value.metadataHash && now.value.resolutionModule == c.value.resolutionModule
            && now.value.createdAtBlock == c.value.block && now.value.revisionOf == h.claimRevisionOf(id)
          else was.Some? && SameButStatus(now.value, was.value))
      && now.value.status == if st.Some? then st.value else if c.Some? then h.claimStatus(id) else was.value.status
  }

  predicate ReplicationHolds(was: Option<ReplicationRow>, now: Option<ReplicationRow>, es: seq<Event>, id: Id) {
    var body, res := LastOf(es, SubmittedBody(id)), LastOf(es, ResolvedAs(id));
    if body.None? && was.None? then now.None?
    else
      && now.Some?
      && now.value.body == (if body.Some? then body.value else was.value.body)
      && now.value.resolution == if res.Some? then res else if was.Some? then was.value.resolution else None
  }

  predicate DecisionHolds(was: Option<DecisionRow>, now: Option<DecisionRow>, es: seq<Event>, h: Head, id: Id) {
    var body := FirstOf(es, RecordedBody(id));
    if body.None? && was.None? then now.None?
    else
      && now.Some?
      && now.value.body == (if was.Some? then was.value.body else body.value)
      && now.value.createdAt == (if was.Some? then was.value.createdAt else h.decisionCreatedAt(id))
      && var mark := LastOf(es, EffectiveFor(now.value.body.claimId));
         now.value.effective == if mark.Some? then mark.value == id else was.Some? && was.value.effective
  }

  /** Snapshot columns from the head, write-once columns kept, settlement columns from the event. */
  predicate ForecastHolds(was: Option<ForecastRow>, now: Option<ForecastRow>, es: seq<Event>, h: Head, id: Id) {
    var touched, fin := LastOf(es, ForecastTouched(id)).Some?, LastOf(es, SettledAs(id));
    if !touched then now == was
    else
      && now.Some? && now.value.body == h.forecast(id).body
      && now.value.effectiveDecisionAtCommit ==
           (if was.Some? && was.value.effectiveDecisionAtCommit.Some? then was.value.effectiveDecisionAtCommit
            else h.forecast(id).effectiveDecisionAtCommit)
      && now.value.resolutionDecision ==
           (if fin.Some? then fin.value.0
            else if was.Some? && was.value.resolutionDecision.Some? then was.value.resolutionDecision
            else h.forecast(id).resolutionDecision)
      && now.value.outcome == (if fin.Some? then Some(fin.value.1) else if was.Some? then was.value.outcome else None)
      && now.value.settled == (fin.Some? || h.forecast(id).settled)
  }

  predicate ChallengeHolds(was: Option<ChallengeRow>, now: Option<ChallengeRow>, es: seq<Event>, h: Head, id: Id) {
    var touched, fin, refund := LastOf(es, ChallengeTouched(id)).Some?, LastOf(es, ResolvedWith(id)), LastOf<nat>(es, Refunded(id));
    if !touched then now == was
    else
      var head := h.challenge(id);
      && now.Some?
      && now.value.snapshot == (if fin.Some? then head.(status := fin.value.0, resolutionHash := Some(fin.value.1)) else head)
      && now.value.payoutAmount == (if fin.Some? then Some(fin.value.2) else if was.Some? then was.value.payoutAmount else None)
      && now.value.refundedAmount == (if refund.Some? then refund else if was.Some? then was.value.refundedAmount else None)
  }

  predicate AppealHolds(was: Option<AppealRow>, now: Option<AppealRow>, es: seq<Event>, h: Head, id: Id) {
    var touched, fin := LastOf(es, AppealTouched(id)).Some?, LastOf(es, AdjudicatedWith(id));
    if !touched then now == was
    else
      var head := h.appeal(id);
      && now.Some?
      && now.value.snapshot ==
           (if fin.Some? then head.(status := fin.value.0, adjudicationHash := Some(fin.value.1), adjudicationURI := Some(fin.value.2)) else head)
      && now.value.refundedAmount == (if fin.Some? then Some(fin.value.3) else if was.Some? then was.value.refundedAmount else None)
  }

  /** Every row of every table after the log. */
  ghost predicate Recorded(t: Tables, u: Tables, es: seq<Event>, h: Head) {
    && (forall id :: ClaimHolds(Lookup(t.claims, id), Lookup(u.claims, id), es, h, id))
    && (forall id :: Lookup(u.artifacts, id) == Coalesce(Lookup(t.artifacts, id), FirstOf(es, Added(id))))
    && (forall id :: ReplicationHolds(Lookup(t.replications, id), Lookup(u.replications, id), es, id))
    && (forall id :: DecisionHolds(Lookup(t.decisions, id), Lookup(u.decisions, id), es, h, id))
    && (forall id :: Lookup(u.checkpoints, id) == Coalesce(Lookup(t.checkpoints, id), FirstOf(es, Published(id))))
    && (forall id :: Lookup(u.agents, id) == if LastOf(es, AgentTouched(id)).Some? then Some(h.agent(id)) else Lookup(t.agents, id))
    && (forall a, k :: Lookup(u.controllers, (a, k)) == Coalesce(LastOf(es, Flag(a, k)), Lookup(t.controllers, (a, k))))
    && (forall id :: ForecastHolds(Lookup(t.forecasts, id), Lookup(u.forecasts, id), es, h, id))
    && (forall id :: ChallengeHolds(Lookup(t.challenges, id), Lookup(u.challenges, id), es, h, id))
    && (forall id :: AppealHolds(Lookup(t.appeals, id), Lookup(u.appeals, id), es, h, id))
  }

  // ----- table by table -----

  lemma OrderedInit(es: seq<Event>)
    requires OrderedLog(es) && es != []
    ensures OrderedLog(es[..|es| - 1])
    ensures forall i :: 0 <= i < |es| - 1 ==> !EventClash(es[i], es[|es| - 1])
  {
  }

  /** One more event acts on each table by itself. */
  lemma OneMoreEvent(t: Tables, es: seq<Event>, h: Head)
    requires es != []
    ensures var p, u, ss := Project(t, es[..|es| - 1], h), Project(t, es, h), Stmts(es[|es| - 1], h);
      && u.claims == Run(p.claims, ss, ClaimStep) && u.artifacts == Run(p.artifacts, ss, ArtifactStep)
      && u.replications == Run(p.replications, ss, ReplicationStep) && u.decisions == Run(p.decisions, ss, DecisionStep)
      && u.checkpoints == Run(p.checkpoints, ss, CheckpointStep) && u.agents == Run(p.agents, ss, AgentStep)
      && u.controllers == Run(p.controllers, ss, ControllerStep) && u.forecasts == Run(p.forecasts, ss, ForecastStep)
      && u.challenges == Run(p.challenges, ss, ChallengeStep) && u.appeals == Run(p.appeals, ss, AppealStep)
  {
    hide Run, Stmts;
    NormalForm.RunSplits(Project(t, es[..|es| - 1], h), Stmts(es[|es| - 1], h));
  }

  /** Nothing that `last` may not follow precedes it. */
  lemma NothingEarlier<T>(es: seq<Event>, pick: Event -> Option<T>)
    requires es != [] && OrderedLog(es) && forall e: Event :: pick(e).Some? ==> EventClash(e, es[|es| - 1])
    ensures LastOf(es[..|es| - 1], pick).None?
  {
    hide EventClash;
    NothingPicked(es[..|es| - 1], pick);
  }

  lemma ClaimWritten(m: map<Id, ClaimRow>, e: Event, h: Head)
    ensures Run(m, Stmts(e, h), ClaimStep) ==
      if e.ClaimCreated?
      then m[e.claimId := ClaimRow(e.author, e.domainId, e.metadataHash, e.resolutionModule, h.claimStatus(e.claimId),
                                   h.claimRevisionOf(e.claimId), e.blockNumber)]
      else if e.ClaimStatusUpdated? && e.claimId in m then m[e.claimId := m[e.claimId].(status := e.newStatus)]
      else m
  {
    ClaimEventWrites(m, e, h);
  }

  lemma {:induction false} ClaimRows(t: Tables, es: seq<Event>, h: Head, id: Id)
    requires OrderedLog(es)
    ensures ClaimHolds(Lookup(t.claims, id), Lookup(Project(t, es, h).claims, id), es, h, id)
  {
    hide Run, OrderedLog, Project, Stmts, ClaimStep;
    if es != [] {
      var init, e := es[..|es| - 1], es[|es| - 1];
      OrderedInit(es);
      ClaimRows(t, init, h, id);
      OneMoreEvent(t, es, h);
      ClaimWritten(Project(t, init, h).claims, e, h);
      if e.ClaimCreated? && e.claimId == id { NothingEarlier<nat>(es, NewStatus(id)); }
    } else {
      assert Project(t, es, h) == t by { NothingProjected(t, h); }
    }
  }

  lemma NothingProjected(t: Tables, h: Head)
    ensures Project(t, [], h) == t
  {
  }

  lemma ArtifactEventWrites(m: map<Id, ArtifactRow>, e: Event, h: Head)
    ensures Run(m, Stmts(e, h), ArtifactStep) == if e.ArtifactAdded? && e.artifactId !in m then m[e.artifactId := e.artifact] else m
  {
    RunStmts(m, e, h, ArtifactStep);
  }

  lemma {:induction false} ArtifactRows(t: Tables, es: seq<Event>, h: Head, id: Id)
    ensures Lookup(Project(t, es, h).artifacts, id) == Coalesce(Lookup(t.artifacts, id), FirstOf(es, Added(id)))
  {
    hide Run, Project, Stmts;
    if es != [] {
      ArtifactRows(t, es[..|es| - 1], h, id);
      OneMoreEvent(t, es, h);
      ArtifactEventWrites(Project(t, es[..|es| - 1], h).artifacts, es[|es| - 1], h);
    } else {
      NothingProjected(t, h);
    }
  }

  lemma CheckpointEventWrites(m: map<Id, CheckpointRow>, e: Event, h: Head)
    ensures Run(m, Stmts(e, h), CheckpointStep) ==
      if e.ReputationCheckpointPublished? && e.checkpointId !in m then m[e.checkpointId := e.checkpoint] else m
  {
    RunStmts(m, e, h, CheckpointStep);
  }

  lemma {:induction false} CheckpointRows(t: Tables, es: seq<Event>, h: Head, id: Id)
    ensures Lookup(Project(t, es, h).checkpoints, id) == Coalesce(Lookup(t.checkpoints, id), FirstOf(es, Published(id)))
  {
    hide Run, Project, Stmts;
    if es != [] {
      CheckpointRows(t, es[..|es| - 1], h, id);
      OneMoreEvent(t, es, h);
      CheckpointEventWrites(Project(t, es[..|es| - 1], h).checkpoints, es[|es| - 1], h);
    } else {
      NothingProjected(t, h);
    }
  }

  lemma AgentEventWrites(m: map<Id, AgentRow>, e: Event, h: Head)
    ensures Run(m, Stmts(e, h), AgentStep) ==
      if e.AgentRegistered? || e.AgentControllerAuthorization? || e.AgentAccountChanged? then m[e.agentId := h.agent(e.agentId)] else m
  {
    RunStmts(m, e, h, AgentStep);
  }

  lemma {:induction false} AgentRows(t: Tables, es: seq<Event>, h: Head, id: Id)
    ensures Lookup(Project(t, es, h).agents, id)
         == if LastOf(es, AgentTouched(id)).Some? then Some(h.agent(id)) else Lookup(t.agents, id)
  {
    hide Run, Project, Stmts;
    if es != [] {
      AgentRows(t, es[..|es| - 1], h, id);
      OneMoreEvent(t, es, h);
      AgentEventWrites(Project(t, es[..|es| - 1], h).agents, es[|es| - 1], h);
    } else {
      NothingProjected(t, h);
    }
  }

  lemma ControllerEventWrites(m: map<(Id, Text), bool>, e: Event, h: Head)
    ensures Run(m, Stmts(e, h), ControllerStep) ==
      if e.AgentControllerAuthorization? then m[(e.agentId, e.controller) := e.authorized] else m
  {
    RunStmts(m, e, h, ControllerStep);
  }

  lemma {:induction false} ControllerRows(t: Tables, es: seq<Event>, h: Head, a: Id, k: Text)
    ensures Lookup(Project(t, es, h).controllers, (a, k)) == Coalesce(LastOf(es, Flag(a, k)), Lookup(t.controllers, (a, k)))
  {
    hide Run, Project, Stmts;
    if es != [] {
      ControllerRows(t, es[..|es| - 1], h, a, k);
      OneMoreEvent(t, es, h);
      ControllerEventWrites(Project(t, es[..|es| - 1], h).controllers, es[|es| - 1], h);
    } else {
      NothingProjected(t, h);
    }
  }

  lemma {:induction false} ReplicationRows(t: Tables, es: seq<Event>, h: Head, id: Id)
    requires OrderedLog(es)
    ensures ReplicationHolds(Lookup(t.replications, id), Lookup(Project(t, es, h).replications, id), es, id)
  {
    hide Run, OrderedLog, Project;
    if es != [] {
      var init, e := es[..|es| - 1], es[|es| - 1];
      OrderedInit(es);
      ReplicationRows(t, init, h, id);
      OneMoreEvent(t, es, h);
      ReplicationEventWrites(Project(t, init, h).replications, e, h);
      if e.ReplicationSubmitted? && e.replicationId == id { NothingEarlier(es, ResolvedAs(id)); }
    } else {
      NothingProjected(t, h);
    }
  }

  /** The effective mark of a claim that names decision `id`. */
  function MarkOf(claimId: Id, id: Id): Event -> Option<Id> {
    (e: Event) => if e.EffectiveResolutionDecisionUpdated? && e.claimId == claimId && e.decisionId == id then Some(id) else None
  }

  lemma {:induction false} UnmarkedFor(es: seq<Event>, claimId: Id, id: Id)
    requires LastOf(es, MarkOf(claimId, id)).None?
    ensures LastOf(es, EffectiveFor(claimId)) != Some(id)
  {
    if es != [] { UnmarkedFor(es[..|es| - 1], claimId, id); }
  }

  lemma {:induction false} DecisionRows(t: Tables, es: seq<Event>, h: Head, id: Id)
    requires OrderedLog(es)
    ensures DecisionHolds(Lookup(t.decisions, id), Lookup(Project(t, es, h).decisions, id), es, h, id)
  {
    hide Run, OrderedLog, Project;
    if es != [] {
      var init, e := es[..|es| - 1], es[|es| - 1];
      OrderedInit(es);
      DecisionRows(t, init, h, id);
      OneMoreEvent(t, es, h);
      DecisionEventWrites(Project(t, init, h).decisions, e, h);
      if e.ResolutionDecisionRecorded? && e.decisionId == id {
        NothingEarlier(es, MarkOf(e.decision.claimId, id));
        UnmarkedFor(init, e.decision.claimId, id);
      }
    } else {
      NothingProjected(t, h);
    }
  }

  lemma {:induction false} ForecastRows(t: Tables, es: seq<Event>, h: Head, id: Id)
    requires OrderedLog(es)
    ensures ForecastHolds(Lookup(t.forecasts, id), Lookup(Project(t, es, h).forecasts, id), es, h, id)
  {
    hide Run, OrderedLog, Project, Stmts, ForecastStep;
    if es != [] {
      var init, e := es[..|es| - 1], es[|es| - 1];
      OrderedInit(es);
      ForecastRows(t, init, h, id);
      OneMoreEvent(t, es, h);
      ForecastEventWrites(Project(t, init, h).forecasts, e, h);
      if ForecastEvent(e) && e.forecastId == id { NothingEarlier(es, SettledAs(id)); }
    } else {
      NothingProjected(t, h);
    }
  }

  lemma {:induction false} ChallengeRows(t: Tables, es: seq<Event>, h: Head, id: Id)
    requires OrderedLog(es)
    ensures ChallengeHolds(Lookup(t.challenges, id), Lookup(Project(t, es, h).challenges, id), es, h, id)
  {
    hide Run, OrderedLog, Project, Stmts, ChallengeStep;
    if es != [] {
      var init, e := es[..|es| - 1], es[|es| - 1];
      OrderedInit(es);
      ChallengeRows(t, init, h, id);
      OneMoreEvent(t, es, h);
      ChallengeEventWrites(Project(t, init, h).challenges, e, h);
      if ChallengeEvent(e) && e.challengeId == id {
        NothingEarlier(es, ResolvedWith(id));
        NothingEarlier<nat>(es, Refunded(id));
      }
    } else {
      NothingProjected(t, h);
    }
  }

  lemma {:induction false} AppealRows(t: Tables, es: seq<Event>, h: Head, id: Id)
    requires OrderedLog(es)
    ensures AppealHolds(Lookup(t.appeals, id), Lookup(Project(t, es, h).appeals, id), es, h, id)
  {
    hide Run, OrderedLog, Project, Stmts, AppealStep;
    if es != [] {
      var init, e := es[..|es| - 1], es[|es| - 1];
      OrderedInit(es);
      AppealRows(t, init, h, id);
      OneMoreEvent(t, es, h);
      AppealEventWrites(Project(t, init, h).appeals, e, h);
      if AppealEvent(e) && e.appealId == id { NothingEarlier(es, AdjudicatedWith(id)); }
    } else {
      NothingProjected(t, h);
    }
  }

  // ----- the whole read model -----

  /** After any ordered log every column is what its first or last event, or the contract read, says. */
  lemma ProjectRecords(t: Tables, es: seq<Event>, h: Head)
    requires OrderedLog(es)
    ensures Recorded(t, Project(t, es, h), es, h)
  {
    hide Project, OrderedLog, ClaimHolds, ReplicationHolds, DecisionHolds, ForecastHolds, ChallengeHolds, AppealHolds, LastOf, FirstOf;
    var u := Project(t, es, h);
    forall id ensures ClaimHolds(Lookup(t.claims, id), Lookup(u.claims, id), es, h, id) { ClaimRows(t, es, h, id); }
    forall id ensures Lookup(u.artifacts, id) == Coalesce(Lookup(t.artifacts, id), FirstOf(es, Added(id))) { ArtifactRows(t, es, h, id); }
    forall id ensures ReplicationHolds(Lookup(t.replications, id), Lookup(u.replications, id), es, id) { ReplicationRows(t, es, h, id); }
    forall id ensures DecisionHolds(Lookup(t.decisions, id), Lookup(u.decisions, id), es, h, id) { DecisionRows(t, es, h, id); }
    forall id ensures Lookup(u.checkpoints, id) == Coalesce(Lookup(t.checkpoints, id), FirstOf(es, Published(id))) { CheckpointRows(t, es, h, id); }
    forall id ensures Lookup(u.agents, id) == if LastOf(es, AgentTouched(id)).Some? then Some(h.agent(id)) else Lookup(t.agents, id) {
      AgentRows(t, es, h, id);
    }
    forall a, k ensures Lookup(u.controllers, (a, k)) == Coalesce(LastOf(es, Flag(a, k)), Lookup(t.controllers, (a, k))) {
      ControllerRows(t, es, h, a, k);
    }
    forall id ensures ForecastHolds(Lookup(t.forecasts, id), Lookup(u.forecasts, id), es, h, id) { ForecastRows(t, es, h, id); }
    forall id ensures ChallengeHolds(Lookup(t.challenges, id), Lookup(u.challenges, id), es, h, id) { ChallengeRows(t, es, h, id); }
    forall id ensures AppealHolds(Lookup(t.appeals, id), Lookup(u.appeals, id), es, h, id) { AppealRows(t, es, h, id); }
  }

  /** So a chunk that commits has recorded its events. */
  lemma ChunkRecords(t: Tables, es: seq<Event>, h: Head)
    requires OrderedLog(es) && Exec(t, BatchStmts(es, h)).Done?
    ensures Recorded(t, Exec(t, BatchStmts(es, h)).tables, es, h)
  {
    hide Recorded, Exec, Project, Effects, BatchStmts, OrderedLog;
    ExecIsEffects(t, BatchStmts(es, h));
    BatchIsProjection(t, es, h);
    ProjectRecords(t, es, h);
  }

  // ----- no update is lost -----

  /** The row that the event updates is there, and of the right claim. */
  predicate Landed(u: Tables, e: Event) {
    match e
    case ClaimStatusUpdated(id, _) => id in u.claims
    case ReplicationResolved(id, _) => id in u.replications
    case EffectiveResolutionDecisionUpdated(claimId, id) => id in u.decisions && u.decisions[id].body.claimId == claimId
    case _ => true
  }

  lemma {:induction false} DoneMeansChecked(t: Tables, ss: seq<Stmt>, k: nat)
    requires Exec(t, ss).Done? && k < |ss|
    ensures Check(Effects(t, ss[..k]), ss[k]).None?
  {
    hide Check, Effect;
    var init := ss[..|ss| - 1];
    if k < |ss| - 1 {
      DoneMeansChecked(t, init, k);
      assert init[..k] == ss[..k];
    } else {
      ExecIsEffects(t, init);
    }
  }

  /** The tables grow from any point of the transaction to its end. */
  lemma GrownToTheEnd(t: Tables, ss: seq<Stmt>, k: nat)
    requires k <= |ss|
    ensures Grown(Effects(t, ss[..k]), Effects(t, ss))
  {
    hide Effect, Grown;
    assert ss == ss[..k] + ss[k..];
    RunConcat(t, ss[..k], ss[k..], Effect);
    EffectsGrow(Effects(t, ss[..k]), ss[k..]);
  }

  /** A chunk commits only if every update of its events met its row: none is dropped silently. */
  lemma ChunkLands(t: Tables, es: seq<Event>, h: Head, e: Event)
    requires Exec(t, BatchStmts(es, h)).Done? && e in es
    ensures Landed(Exec(t, BatchStmts(es, h)).tables, e)
  {
    hide Exec, Effects, Effect, Groups, Group, BatchStmts;
    if e.ClaimStatusUpdated? || e.ReplicationResolved? || e.EffectiveResolutionDecisionUpdated? {
      var ss := BatchStmts(es, h);
      var k := PlaceOf(es, h, e, Stmts(e, h)[0],
                       if e.ClaimStatusUpdated? then KClaimStatus else if e.ReplicationResolved? then KResolution else KEffective);
      DoneMeansChecked(t, ss, k);
      GrownToTheEnd(t, ss, k);
      ExecIsEffects(t, ss);
    }
  }

  lemma PlaceOf(es: seq<Event>, h: Head, e: Event, s: Stmt, kind: Kind) returns (k: nat)
    requires e in es && s in Stmts(e, h) && IsKind(s, kind)
    ensures k < |BatchStmts(es, h)| && BatchStmts(es, h)[k] == s
  {
    hide Groups, Group, BatchStmts, Stmts, IsKind, EventStmts;
    var i :| 0 <= i < |es| && es[i] == e;
    Issued(es, h, i, s);
    GroupMembers(es, h, kind);
    var p :| 0 <= p < |Group(es, h, kind)| && Group(es, h, kind)[p] == s;
    k := ChunkOutcome.BatchPosition(es, h, kind, p);
  }

  // ----- over any runs -----

  /** The columns that only events write, straight from the log. */
  ghost predicate LogRecorded(u: Tables, es: seq<Event>) {
    && (forall id :: RegistryRow(u, es, id))
    && (forall id :: MarketRow(u, es, id))
    && (forall a, k :: Lookup(u.controllers, (a, k)) == LastOf(es, Flag(a, k)))
  }

  predicate RegistryRow(u: Tables, es: seq<Event>, id: Id) {
    && Lookup(u.artifacts, id) == FirstOf(es, Added(id))
    && Lookup(u.checkpoints, id) == FirstOf(es, Published(id))
    && ReplicationHolds(None, Lookup(u.replications, id), es, id)
    && (id in u.claims <==> LastOf(es, Created(id)).Some?)
    && (id in u.claims ==> CreatedAs(u.claims[id], LastOf(es, Created(id)).value))
    && (id in u.decisions <==> FirstOf(es, RecordedBody(id)).Some?)
    && (id in u.decisions ==> DecidedAs(u.decisions[id], es, id))
  }

  predicate MarketRow(u: Tables, es: seq<Event>, id: Id) {
    && (id in u.agents <==> LastOf(es, AgentTouched(id)).Some?)
    && (id in u.forecasts <==> LastOf(es, ForecastTouched(id)).Some?)
    && (id in u.forecasts ==> u.forecasts[id].outcome == Second(LastOf(es, SettledAs(id))))
    && (id in u.challenges <==> LastOf(es, ChallengeTouched(id)).Some?)
    && (id in u.challenges ==> u.challenges[id].payoutAmount == Third(LastOf(es, ResolvedWith(id))))
    && (id in u.challenges ==> u.challenges[id].refundedAmount == LastOf<nat>(es, Refunded(id)))
    && (id in u.appeals <==> LastOf(es, AppealTouched(id)).Some?)
    && (id in u.appeals ==> u.appeals[id].refundedAmount == Fourth(LastOf(es, AdjudicatedWith(id))))
  }

  predicate CreatedAs(row: ClaimRow, c: Creation) {
    && row.author == c.author && row.domainId == c.domainId && row.metadataHash == c.metadataHash
    && row.resolutionModule == c.resolutionModule && row.createdAtBlock == c.block
  }

  predicate DecidedAs(row: DecisionRow, es: seq<Event>, id: Id) {
    var body := FirstOf(es, RecordedBody(id));
    && body == Some(row.body)
    && row.effective == (LastOf(es, EffectiveFor(row.body.claimId)) == Some(id))
  }

  function Second(x: Option<(Option<Id>, Settlement)>): Option<Settlement> {
    if x.Some? then Some(x.value.1) else None
  }

  function Third(x: Option<(nat, Text, nat)>): Option<nat> {
    if x.Some? then Some(x.value.2) else None
  }

  function Fourth(x: Option<(nat, Text, Text, nat)>): Option<nat> {
    if x.Some? then Some(x.value.3) else None
  }

  lemma RegistryFromEmpty(es: seq<Event>, h: Head, id: Id)
    requires OrderedLog(es)
    ensures RegistryRow(Project(EmptyTables, es, h), es, id)
  {
    hide LastOf, FirstOf, OrderedLog, Project;
    ClaimRows(EmptyTables, es, h, id);
    ArtifactRows(EmptyTables, es, h, id);
    ReplicationRows(EmptyTables, es, h, id);
    DecisionRows(EmptyTables, es, h, id);
    CheckpointRows(EmptyTables, es, h, id);
  }

  lemma MarketFromEmpty(es: seq<Event>, h: Head, id: Id)
    requires OrderedLog(es)
    ensures MarketRow(Project(EmptyTables, es, h), es, id)
  {
    hide LastOf, FirstOf, OrderedLog, Project;
    AgentRows(EmptyTables, es, h, id);
    ForecastRows(EmptyTables, es, h, id);
    ChallengeRows(EmptyTables, es, h, id);
    AppealRows(EmptyTables, es, h, id);
  }

  lemma SameRegistry(u: Tables, v: Tables, m: Marks, es: seq<Event>, id: Id)
    requires Columns(v, u, m) && RegistryRow(u, es, id)
    ensures RegistryRow(v, es, id)
  {
    hide LastOf, FirstOf, ReplicationHolds, ForecastColumns, ChallengeColumns, AppealColumns;
    if id in v.claims { assert SameClaim(v.claims[id], u.claims[id], Target(KClaimStatus, IdKey(id)) in m); }
    if id in v.decisions { assert v.decisions[id].(createdAt := u.decisions[id].createdAt) == u.decisions[id]; }
  }

  lemma SameMarket(u: Tables, v: Tables, m: Marks, es: seq<Event>, id: Id)
    requires Columns(v, u, m) && MarketRow(u, es, id)
    ensures MarketRow(v, es, id)
  {
    hide LastOf, FirstOf, ClaimColumns, DecisionColumns;
    if id in v.forecasts { assert SameForecast(v.forecasts[id], u.forecasts[id], Target(KSettlement, IdKey(id)) in m); }
    if id in v.challenges { assert SameChallenge(v.challenges[id], u.challenges[id], Target(KChallengeResolution, IdKey(id)) in m); }
    if id in v.appeals { assert SameAppeal(v.appeals[id], u.appeals[id], Target(KAdjudication, IdKey(id)) in m); }
  }

  lemma SameColumnsRecorded(v: Tables, es: seq<Event>, h: Head, m: Marks)
    requires OrderedLog(es) && Columns(v, Project(EmptyTables, es, h), m)
    ensures LogRecorded(v, es)
  {
    hide LastOf, FirstOf, RegistryRow, MarketRow, OrderedLog, Project;
    var u := Project(EmptyTables, es, h);
    forall id ensures RegistryRow(v, es, id) {
      RegistryFromEmpty(es, h, id);
      SameRegistry(u, v, m, es, id);
    }
    forall id ensures MarketRow(v, es, id) {
      MarketFromEmpty(es, h, id);
      SameMarket(u, v, m, es, id);
    }
    forall a, k ensures Lookup(v.controllers, (a, k)) == LastOf(es, Flag(a, k)) { ControllerRows(EmptyTables, es, h, a, k); }
  }

  /**
    After any runs, crashes and chain replacements, each column that only events write holds what
    the events of the indexed blocks of a chain that some run saw say it holds.
  */
  lemma RunsRecordTheLog(attempts: seq<Attempt>, content: Hash -> (Hash, seq<Event>), h: Head)
      returns (i: nat, hs: seq<Head>)
    requires AllCanonical(attempts, content)
    requires forall i :: 0 <= i < |attempts| ==> attempts[i].config.batchSize > 0
    requires Runs(FreshStore, attempts).deployment.Some?
    ensures var s := Runs(FreshStore, attempts);
      var first := FirstBlock(s.deployment.value.1);
      && i < |attempts| && HoldsSeen(s, attempts, i, hs)
      && (s.cursor.value >= first ==> LogRecorded(s.tables, LogOf(attempts[i].network.chain, first, s.cursor.value + 1)))
  {
    hide Canonical, Sync, ProjectUnder, LogOf, Columns, Runs, Project, Marked, HeadsSeen, LogRecorded, Recorded, OrderedLog;
    i, hs := RunsProjectTheLog(attempts, content, h);
    var s := Runs(FreshStore, attempts);
    var first, chain := FirstBlock(s.deployment.value.1), attempts[i].network.chain;
    if s.cursor.value >= first {
      var log := LogOf(chain, first, s.cursor.value + 1);
      CanonicalOrdered(chain, content);
      OrderedSlice(chain, first, s.cursor.value + 1);
      SameColumnsRecorded(s.tables, log, h, Marked(log));
    }
  }
}
