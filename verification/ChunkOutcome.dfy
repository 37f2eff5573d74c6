/**
  When the chunk transaction commits.

  On a log in which every event refers only to what came before it, none of the "was not
  present" errors and none of the constraints can fire, with one exception: a forecast is
  upserted with the resolution decision that the head reports, and that decision must already
  be recorded (ops/migrations/027, forecasts_resolution_decision_id_fkey).
*/
module ChunkOutcome {
  import opened Common
  import opened ReadModel
  import opened NormalForm
  import opened Projector

  /** The constraints on artifacts, replications and controllers. */
  ghost predicate SoundRegistry(t: Tables) {
    && (forall a :: a in t.artifacts ==> t.artifacts[a].claimId in t.claims)
    && (forall r :: r in t.replications ==> t.replications[r].body.claimId in t.claims)
    && (forall k :: k in t.controllers ==> k.0 in t.agents)
  }

  predicate SoundDecision(t: Tables, d: DecisionRow) {
    d.body.claimId in t.claims && d.body.replicationId in t.replications
  }

  /** Decisions: their references, one per replication, and at most one effective per claim. */
  ghost predicate SoundDecisions(t: Tables) {
    && (forall d :: d in t.decisions ==> SoundDecision(t, t.decisions[d]))
    && (forall d, e :: d in t.decisions && e in t.decisions && d != e ==> Independent(t.decisions[d], t.decisions[e]))
  }

  predicate Independent(d: DecisionRow, e: DecisionRow) {
    && d.body.replicationId != e.body.replicationId
    && !(d.effective && e.effective && d.body.claimId == e.body.claimId)
  }

  predicate SoundForecast(t: Tables, f: ForecastRow) {
    && f.body.claimId in t.claims
    && DecisionKnown(t, f.effectiveDecisionAtCommit)
    && DecisionKnown(t, f.resolutionDecision)
  }

  ghost predicate SoundForecasts(t: Tables) {
    forall f :: f in t.forecasts ==> SoundForecast(t, t.forecasts[f])
  }

  ghost predicate SoundDisputes(t: Tables) {
    && (forall c :: c in t.challenges ==> t.challenges[c].snapshot.claimId in t.claims)
    && (forall a :: a in t.appeals ==> t.appeals[a].snapshot.claimId in t.claims)
  }

  /** The constraints of the schema hold. */
  ghost predicate Sound(t: Tables) {
    SoundRegistry(t) && SoundDecisions(t) && SoundForecasts(t) && SoundDisputes(t)
  }

  /** No statement removes a row. */
  lemma RowsStay(t: Tables, s: Stmt)
    ensures var u := Effect(t, s);
      t.claims.Keys <= u.claims.Keys && t.replications.Keys <= u.replications.Keys
      && t.agents.Keys <= u.agents.Keys && t.decisions.Keys <= u.decisions.Keys
  {
  }

  lemma RegistryStaysSound(t: Tables, s: Stmt)
    requires SoundRegistry(t) && Check(t, s).None?
    ensures SoundRegistry(Effect(t, s))
  {
    RowsStay(t, s);
    assert s.InsertArtifact? || ArtifactStep(t.artifacts, s) == t.artifacts;
    assert s.UpsertController? || ControllerStep(t.controllers, s) == t.controllers;
  }

  lemma DecisionsStaySound(t: Tables, s: Stmt)
    requires SoundDecisions(t) && Check(t, s).None?
    ensures SoundDecisions(Effect(t, s))
  {
    RowsStay(t, s);
    var u := Effect(t, s);
    if !s.InsertDecision? && !s.MarkEffective? {
      assert u.decisions == t.decisions;
    }
    if s.InsertDecision? && s.id !in t.decisions {
      assert !ReplicationDecided(t, s.decision.replicationId);
    }
  }

  lemma ForecastsStaySound(t: Tables, s: Stmt)
    requires SoundForecasts(t) && Check(t, s).None?
    ensures SoundForecasts(Effect(t, s))
  {
    RowsStay(t, s);
    if !s.UpsertForecast? && !s.SettleForecast? {
      assert Effect(t, s).forecasts == t.forecasts;
    }
  }

  lemma DisputesStaySound(t: Tables, s: Stmt)
    requires SoundDisputes(t) && Check(t, s).None?
    ensures SoundDisputes(Effect(t, s))
  {
    RowsStay(t, s);
    var u := Effect(t, s);
    assert s.UpsertChallenge? || s.ResolveChallenge? || s.WithdrawChallenge? || u.challenges == t.challenges;
    assert s.UpsertAppeal? || s.AdjudicateAppeal? || u.appeals == t.appeals;
  }

  /** A statement that raises no error keeps every constraint, one effective decision a claim included. */
  lemma {:induction false} ExecIsSound(t: Tables, ss: seq<Stmt>)
    requires Sound(t) && Exec(t, ss).Done?
    ensures Sound(Exec(t, ss).tables)
  {
    if ss != [] {
      ExecIsSound(t, ss[..|ss| - 1]);
      var u, s := Exec(t, ss[..|ss| - 1]).tables, ss[|ss| - 1];
      RegistryStaysSound(u, s);
      DecisionsStaySound(u, s);
      ForecastsStaySound(u, s);
      DisputesStaySound(u, s);
    }
  }

  // ----- well-founded logs -----

  /** Event `e` refers only to rows that the tables `p` hold before it. */
  ghost predicate GroundedEvent(p: Tables, e: Event, h: Head) {
    match e
    case ClaimStatusUpdated(id, _) => id in p.claims
    case ResolutionDecisionRecorded(id, decision) =>
      && decision.claimId in p.claims && decision.replicationId in p.replications
      && (id !in p.decisions ==> !ReplicationDecided(p, decision.replicationId))
    case EffectiveResolutionDecisionUpdated(claimId, id) =>
      id in p.decisions && p.decisions[id].body.claimId == claimId
    case ArtifactAdded(_, artifact) => artifact.claimId in p.claims
    case ReplicationSubmitted(_, submission) => submission.claimId in p.claims
    case ReplicationResolved(id, _) => id in p.replications
    case ForecastCommitted(id) => GroundedForecast(p, h.forecast(id))
    case ForecastRevealed(id) => GroundedForecast(p, h.forecast(id))
    case ForecastSettled(id, settledBy, _) => GroundedForecast(p, h.forecast(id)) && DecisionKnown(p, settledBy)
    case ChallengeOpened(id) => h.challenge(id).claimId in p.claims
    case ChallengeResolved(id, _, _, _) => h.challenge(id).claimId in p.claims
    case ChallengeWithdrawn(id, _) => h.challenge(id).claimId in p.claims
    case AppealFiled(id) => h.appeal(id).claimId in p.claims
    case AppealAdjudicated(id, _, _, _, _) => h.appeal(id).claimId in p.claims
    case _ => true
  }

  predicate GroundedForecast(p: Tables, f: ForecastSnapshot) {
    f.body.claimId in p.claims && DecisionKnown(p, f.effectiveDecisionAtCommit)
  }

  ghost predicate Grounded(t: Tables, es: seq<Event>, h: Head) {
    forall j :: 0 <= j < |es| ==> GroundedEvent(Project(t, es[..j], h), es[j], h)
  }

  predicate RecordedIn(es: seq<Event>, d: Id) {
    exists i :: 0 <= i < |es| && es[i].ResolutionDecisionRecorded? && es[i].decisionId == d
  }

  /** The decision the upsert stores for forecast `f`: the stored one, else the head's. */
  function StoredDecision(t: Tables, h: Head, f: Id): Option<Id> {
    MergeForecast(Lookup(t.forecasts, f), h.forecast(f)).resolutionDecision
  }

  /** That decision is recorded no later than the end of the chunk. */
  predicate Visible(t: Tables, es: seq<Event>, h: Head, f: Id) {
    var d := StoredDecision(t, h, f);
    d.Some? ==> d.value in t.decisions || RecordedIn(es, d.value)
  }

  predicate AllVisible(t: Tables, es: seq<Event>, h: Head) {
    forall f :: f in TouchedForecasts(es) ==> Visible(t, es, h, f)
  }

  // ----- the state in which a statement of the batch runs -----

  /** The batch up to position `p` of the group of that kind. */
  function Prefix(es: seq<Event>, h: Head, kind: Kind, p: nat): seq<Stmt>
    requires p <= |Group(es, h, kind)|
  {
    Groups(es, h, Rank(kind)) + Group(es, h, kind)[..p]
  }

  lemma {:induction false} LocateIn<B>(n: nat, f: nat -> seq<B>, i: nat) returns (r: nat, p: nat)
    requires i < |Concat(n, f)|
    ensures r < n && p < |f(r)|
    ensures Concat(n, f)[..i] == Concat(r, f) + f(r)[..p] && Concat(n, f)[i] == f(r)[p]
  {
    var front := Concat(n - 1, f);
    if i < |front| {
      r, p := LocateIn(n - 1, f, i);
    } else {
      r, p := n - 1, i - |front|;
    }
  }

  /** The group and the position in it of statement `i` of the batch. */
  lemma Locate(es: seq<Event>, h: Head, i: nat) returns (kind: Kind, p: nat)
    requires i < |BatchStmts(es, h)|
    ensures p < |Group(es, h, kind)|
    ensures BatchStmts(es, h)[..i] == Prefix(es, h, kind, p)
    ensures BatchStmts(es, h)[i] == Group(es, h, kind)[p]
  {
    var r, q := LocateIn(GROUPS, GroupAt(es, h), i);
    kind, p := KindAt(r), q;
    RankInjective(r, kind);
  }

  lemma PrefixOrdered(es: seq<Event>, h: Head, kind: Kind, p: nat)
    requires p <= |Group(es, h, kind)|
    ensures Ordered(Prefix(es, h, kind, p))
  {
    hide Ordered, Group, Rank, KindAt;
    var r := Rank(kind);
    GroupsOrdered(es, h, r + 1);
    OrderedPrefix(Groups(es, h, r + 1), |Groups(es, h, r)| + p);
    assert Groups(es, h, r + 1) == Groups(es, h, r) + Group(es, h, kind);
    assert Prefix(es, h, kind, p) == Groups(es, h, r + 1)[..|Groups(es, h, r)| + p];
  }

  /** Every group of a lower rank has run completely; of the later ones nothing has. */
  lemma PrefixEnds(es: seq<Event>, h: Head, kind: Kind, p: nat, g: Target)
    requires p <= |Group(es, h, kind)| && g.kind != kind
    ensures Last(Prefix(es, h, kind, p), g) == if Rank(g.kind) < Rank(kind) then Last(EventStmts(es, h), g) else None
    ensures First(Prefix(es, h, kind, p), g) == if Rank(g.kind) < Rank(kind) then First(EventStmts(es, h), g) else None
  {
    var front, part := Groups(es, h, Rank(kind)), Group(es, h, kind)[..p];
    GroupsKeepEnds(es, h, Rank(kind), g);
    if Rank(g.kind) == Rank(kind) { RankInjective(Rank(kind), g.kind); }
    LastOfConcat(front, part, g);
    FirstOfConcat(front, part, g);
    GroupMembers(es, h, kind);
    forall s | s in part ensures !Hits(s, g) {
      assert s in Group(es, h, kind);
      if IsKind(s, g.kind) { OneKind(s, kind, g.kind); }
    }
    NoHits(part, g);
  }

  lemma EndsOfLogPrefix(es: seq<Event>, h: Head, j: nat, g: Target)
    requires j <= |es|
    ensures Last(EventStmts(es[..j], h), g).Some? ==> Last(EventStmts(es, h), g).Some?
    ensures First(EventStmts(es[..j], h), g).Some? ==> First(EventStmts(es, h), g) == First(EventStmts(es[..j], h), g)
  {
    assert es == es[..j] + es[j..];
    EventStmtsConcat(es[..j], es[j..], h);
    LastOfConcat(EventStmts(es[..j], h), EventStmts(es[j..], h), g);
    FirstOfConcat(EventStmts(es[..j], h), EventStmts(es[j..], h), g);
  }

  /** A claim known before event `j` exists once the claim group has run. */
  lemma ClaimKept(t: Tables, es: seq<Event>, h: Head, j: nat, kind: Kind, p: nat, c: Id)
    requires OrderedLog(es) && j <= |es| && 0 < Rank(kind) && p <= |Group(es, h, kind)|
    requires c in Project(t, es[..j], h).claims
    ensures c in Effects(t, Prefix(es, h, kind, p)).claims
  {
    hide Groups, Group, EventStmts, Effect, Ordered, OrderedLog, Prefix, Stmts;
    var g, pre, prior := Target(KClaim, IdKey(c)), Prefix(es, h, kind, p), EventStmts(es[..j], h);
    LogPrefixOrdered(es, j);
    EventStmtsOrdered(es[..j], h);
    PrefixOrdered(es, h, kind, p);
    ProjectRuns(t, es[..j], h);
    RunSplits(t, prior);
    RunSplits(t, pre);
    ClaimNormalForm(t.claims, prior, c);
    ClaimNormalForm(t.claims, pre, c);
    EndsOfLogPrefix(es, h, j, g);
    PrefixEnds(es, h, kind, p, g);
  }

  lemma ReplicationKept(t: Tables, es: seq<Event>, h: Head, j: nat, kind: Kind, p: nat, id: Id)
    requires OrderedLog(es) && j <= |es| && 3 < Rank(kind) && p <= |Group(es, h, kind)|
    requires id in Project(t, es[..j], h).replications
    ensures id in Effects(t, Prefix(es, h, kind, p)).replications
  {
    hide Groups, Group, EventStmts, Effect, Ordered, OrderedLog, Prefix, Stmts;
    var g, pre, prior := Target(KReplication, IdKey(id)), Prefix(es, h, kind, p), EventStmts(es[..j], h);
    LogPrefixOrdered(es, j);
    EventStmtsOrdered(es[..j], h);
    PrefixOrdered(es, h, kind, p);
    ProjectRuns(t, es[..j], h);
    RunSplits(t, prior);
    RunSplits(t, pre);
    ReplicationNormalForm(t.replications, prior, id);
    ReplicationNormalForm(t.replications, pre, id);
    EndsOfLogPrefix(es, h, j, g);
    PrefixEnds(es, h, kind, p, g);
  }

  lemma DecisionKept(t: Tables, es: seq<Event>, h: Head, j: nat, kind: Kind, p: nat, d: Id)
    requires OrderedLog(es) && j <= |es| && 5 < Rank(kind) && p <= |Group(es, h, kind)|
    requires d in Project(t, es[..j], h).decisions
    ensures d in Effects(t, Prefix(es, h, kind, p)).decisions
    ensures Effects(t, Prefix(es, h, kind, p)).decisions[d].body == Project(t, es[..j], h).decisions[d].body
  {
    hide Groups, Group, EventStmts, Effect, Ordered, OrderedLog, Prefix, Stmts;
    var g, pre, prior := Target(KDecision, IdKey(d)), Prefix(es, h, kind, p), EventStmts(es[..j], h);
    LogPrefixOrdered(es, j);
    EventStmtsOrdered(es[..j], h);
    PrefixOrdered(es, h, kind, p);
    ProjectRuns(t, es[..j], h);
    RunSplits(t, prior);
    RunSplits(t, pre);
    DecisionNormalForm(t.decisions, prior, d);
    DecisionNormalForm(t.decisions, pre, d);
    EndsOfLogPrefix(es, h, j, g);
    PrefixEnds(es, h, kind, p, g);
  }

  /** Once the decision group has run, exactly the stored and the chunk's decisions exist. */
  lemma DecisionsPresent(t: Tables, es: seq<Event>, h: Head, kind: Kind, p: nat, d: Id)
    requires OrderedLog(es) && 5 < Rank(kind) && p <= |Group(es, h, kind)|
    ensures d in Effects(t, Prefix(es, h, kind, p)).decisions <==> d in t.decisions || RecordedIn(es, d)
  {
    hide Groups, Group, EventStmts, Effect, Ordered, Prefix, RecordedIn;
    var g, pre := Target(KDecision, IdKey(d)), Prefix(es, h, kind, p);
    PrefixOrdered(es, h, kind, p);
    RunSplits(t, pre);
    DecisionNormalForm(t.decisions, pre, d);
    PrefixEnds(es, h, kind, p, g);
    RecordedIsIssued(es, h, d);
  }

  lemma RecordedIsIssued(es: seq<Event>, h: Head, d: Id)
    ensures First(EventStmts(es, h), Target(KDecision, IdKey(d))).Some? <==> RecordedIn(es, d)
  {
    var g := Target(KDecision, IdKey(d));
    var ins := First(EventStmts(es, h), g);
    if ins.Some? {
      var i := SourceOf(es, h, ins.value);
      assert es[i].ResolutionDecisionRecorded? && es[i].decisionId == d;
    }
    if i :| 0 <= i < |es| && es[i].ResolutionDecisionRecorded? && es[i].decisionId == d {
      var s := InsertDecision(d, es[i].decision, h.decisionCreatedAt(d));
      assert s in Stmts(es[i], h);
      Issued(es, h, i, s);
      SomeHit(EventStmts(es, h), g, s);
    }
  }

  /** In a list built from at most one item per element, each item belongs to one element. */
  lemma {:induction false} FlatMapAt<A, B>(xs: seq<A>, f: A -> seq<B>, p: nat) returns (j: nat)
    requires p < |FlatMap(xs, f)| && forall i :: 0 <= i < |xs| ==> |f(xs[i])| <= 1
    ensures j < |xs| && f(xs[j]) == [FlatMap(xs, f)[p]]
    ensures FlatMap(xs, f)[..p] == FlatMap(xs[..j], f)
  {
    var init := xs[..|xs| - 1];
    var front := FlatMap(init, f);
    if p < |front| {
      j := FlatMapAt(init, f, p);
      assert init[..j] == xs[..j];
    } else {
      j := |xs| - 1;
    }
  }

  lemma {:induction false} OfKindFlat(es: seq<Event>, h: Head, kind: Kind)
    ensures OfKind(EventStmts(es, h), kind) == FlatMap(es, (e: Event) => OfKind(Stmts(e, h), kind))
  {
    if es != [] {
      var init, e := es[..|es| - 1], es[|es| - 1];
      OfKindFlat(init, h, kind);
      OfKindConcat(EventStmts(init, h), Stmts(e, h), kind);
    }
  }

  /** Groups that are not deduplicated keep chain order: position `p` belongs to one event. */
  lemma EventAt(es: seq<Event>, h: Head, kind: Kind, p: nat) returns (j: nat)
    requires !Deduplicated(kind) && p < |Group(es, h, kind)|
    ensures j < |es| && Group(es, h, kind)[p] in Stmts(es[j], h)
    ensures Group(es, h, kind)[..p] == OfKind(EventStmts(es[..j], h), kind)
  {
    var f := (e: Event) => OfKind(Stmts(e, h), kind);
    OfKindFlat(es, h, kind);
    forall i | 0 <= i < |es| ensures |f(es[i])| <= 1 { AtMostOneOfKind(es[i], h, kind); }
    j := FlatMapAt(es, f, p);
    OfKindFlat(es[..j], h, kind);
    OfKindMembers(Stmts(es[j], h), kind);
    assert Group(es, h, kind)[p] in f(es[j]);
  }

  lemma {:induction false} OfKindConcat(a: seq<Stmt>, b: seq<Stmt>, kind: Kind)
    ensures OfKind(a + b, kind) == OfKind(a, kind) + OfKind(b, kind)
  {
    if b == [] {
      assert a + b == a;
    } else {
      assert (a + b)[..|a + b| - 1] == a + b[..|b| - 1];
      OfKindConcat(a, b[..|b| - 1], kind);
    }
  }

  lemma AtMostOneOfKind(e: Event, h: Head, kind: Kind)
    ensures |OfKind(Stmts(e, h), kind)| <= 1
  {
    var ss := Stmts(e, h);
    if |ss| == 2 {
      assert ss == [ss[0]] + [ss[1]];
      OfKindConcat([ss[0]], [ss[1]], kind);
      assert !(IsKind(ss[0], kind) && IsKind(ss[1], kind));
    }
  }

  // ----- every check of the batch, group by group -----

  /** Inside the decision group, the decisions are those of the chain prefix before the event. */
  lemma DecisionsSoFar(t: Tables, es: seq<Event>, h: Head, j: nat, p: nat, d: Id)
    requires OrderedLog(es) && j < |es| && p < |Group(es, h, KDecision)|
    requires Group(es, h, KDecision)[..p] == OfKind(EventStmts(es[..j], h), KDecision)
    ensures var b, q := Effects(t, Prefix(es, h, KDecision, p)).decisions, Project(t, es[..j], h).decisions;
      (d in b <==> d in q) && (d in b ==> b[d].body == q[d].body)
  {
    hide Groups, Group, EventStmts, Stmts, Effect, Effects, Project, Ordered, OrderedLog;
    var g, pre, prior := Target(KDecision, IdKey(d)), Prefix(es, h, KDecision, p), EventStmts(es[..j], h);
    LogPrefixOrdered(es, j);
    EventStmtsOrdered(es[..j], h);
    PrefixOrdered(es, h, KDecision, p);
    ProjectRuns(t, es[..j], h);
    RunSplits(t, prior);
    RunSplits(t, pre);
    DecisionNormalForm(t.decisions, prior, d);
    DecisionNormalForm(t.decisions, pre, d);
    OfKindKeepsEnds(prior, g);
    GroupsKeepEnds(es, h, 5, g);
    FirstOfConcat(Groups(es, h, 5), Group(es, h, KDecision)[..p], g);
  }

  lemma LogPrefixOrdered(es: seq<Event>, j: nat)
    requires OrderedLog(es) && j <= |es|
    ensures OrderedLog(es[..j])
  {
  }

  /** An event of the chunk touches the row, so the upsert group, which ran earlier, aimed at it. */
  lemma UpsertedBefore(es: seq<Event>, h: Head, kind: Kind, p: nat, up: Kind, j: nat, id: Id)
    requires Deduplicated(up) && Rank(up) < Rank(kind) && p <= |Group(es, h, kind)|
    requires j < |es| && TouchedBy(es[j], up) == Some(id)
    ensures Last(Prefix(es, h, kind, p), Target(up, IdKey(id))).Some?
  {
    hide Groups, Group, EventStmts;
    var g := Target(up, IdKey(id));
    UpsertIssued(es[j], h, up, Upsert(h, up, id));
    Issued(es, h, j, Upsert(h, up, id));
    SomeHit(EventStmts(es, h), g, Upsert(h, up, id));
    PrefixEnds(es, h, kind, p, g);
  }

  lemma TouchedRowPresent(t: Tables, es: seq<Event>, h: Head, kind: Kind, p: nat, up: Kind, j: nat, id: Id)
    requires Deduplicated(up) && Rank(up) < Rank(kind) && p <= |Group(es, h, kind)|
    requires j < |es| && TouchedBy(es[j], up) == Some(id)
    ensures var u := Effects(t, Prefix(es, h, kind, p));
      match up
      case KAgent => id in u.agents
      case KForecast => id in u.forecasts
      case KChallenge => id in u.challenges
      case KAppeal => id in u.appeals
      case _ => true
  {
    hide Groups, Group, Prefix, EventStmts, Effect, Stmts, TouchedBy, Ordered;
    var pre := Prefix(es, h, kind, p);
    UpsertedBefore(es, h, kind, p, up, j, id);
    PrefixOrdered(es, h, kind, p);
    RunSplits(t, pre);
    match up {
      case KAgent => AgentNormalForm(t.agents, pre, id);
      case KForecast => ForecastNormalForm(t.forecasts, pre, id);
      case KChallenge => ChallengeNormalForm(t.challenges, pre, id);
      case KAppeal => AppealNormalForm(t.appeals, pre, id);
      case _ =>
    }
  }

  /** The event behind statement `p` of a group in chain order, and what it may refer to. */
  lemma CauseOf(t: Tables, es: seq<Event>, h: Head, kind: Kind, p: nat) returns (j: nat)
    requires !Deduplicated(kind) && p < |Group(es, h, kind)| && Grounded(t, es, h)
    ensures j < |es| && Group(es, h, kind)[p] in Stmts(es[j], h) && IsKind(Group(es, h, kind)[p], kind)
    ensures GroundedEvent(Project(t, es[..j], h), es[j], h)
    ensures Group(es, h, kind)[..p] == OfKind(EventStmts(es[..j], h), kind)
  {
    hide Group, EventStmts, Stmts, GroundedEvent, Project, OfKind;
    j := EventAt(es, h, kind, p);
    GroupMembers(es, h, kind);
    assert Group(es, h, kind)[p] in Group(es, h, kind);
  }

  lemma RegistryCheck(t: Tables, es: seq<Event>, h: Head, kind: Kind, p: nat)
    requires OrderedLog(es) && Grounded(t, es, h) && Rank(kind) < 8 && p < |Group(es, h, kind)|
    ensures Check(Effects(t, Prefix(es, h, kind, p)), Group(es, h, kind)[p]).None?
  {
    hide Groups, Group, Prefix, EventStmts, Effects, Effect, Project, OrderedLog, Grounded, OfKind, ReplicationDecided;
    var s := Group(es, h, kind)[p];
    var j := CauseOf(t, es, h, kind, p);
    match kind {
      case KClaimStatus => ClaimKept(t, es, h, j, kind, p, s.id);
      case KArtifact => ClaimKept(t, es, h, j, kind, p, s.artifact.claimId);
      case KReplication => ClaimKept(t, es, h, j, kind, p, s.submission.claimId);
      case KResolution => ReplicationKept(t, es, h, j, kind, p, s.id);
      case KDecision => DecisionCheck(t, es, h, j, p);
      case KEffective => DecisionKept(t, es, h, j, kind, p, s.decisionId);
      case _ =>
    }
  }

  lemma DecisionCheck(t: Tables, es: seq<Event>, h: Head, j: nat, p: nat)
    requires OrderedLog(es) && j < |es| && p < |Group(es, h, KDecision)|
    requires GroundedEvent(Project(t, es[..j], h), es[j], h)
    requires Group(es, h, KDecision)[p] in Stmts(es[j], h) && Group(es, h, KDecision)[p].InsertDecision?
    requires Group(es, h, KDecision)[..p] == OfKind(EventStmts(es[..j], h), KDecision)
    ensures Check(Effects(t, Prefix(es, h, KDecision, p)), Group(es, h, KDecision)[p]).None?
  {
    hide Groups, Group, Prefix, EventStmts, Effects, Effect, Project, OrderedLog, OfKind;
    var s, u := Group(es, h, KDecision)[p], Effects(t, Prefix(es, h, KDecision, p));
    ClaimKept(t, es, h, j, KDecision, p, s.decision.claimId);
    ReplicationKept(t, es, h, j, KDecision, p, s.decision.replicationId);
    DecisionsSoFar(t, es, h, j, p, s.id);
    if s.id !in u.decisions && ReplicationDecided(u, s.decision.replicationId) {
      var d :| d in u.decisions && u.decisions[d].body.replicationId == s.decision.replicationId;
      DecisionsSoFar(t, es, h, j, p, d);
    }
  }

  lemma ControllerCheck(t: Tables, es: seq<Event>, h: Head, p: nat)
    requires Grounded(t, es, h) && p < |Group(es, h, KController)|
    ensures Check(Effects(t, Prefix(es, h, KController, p)), Group(es, h, KController)[p]).None?
  {
    hide Groups, Group, Prefix, EventStmts, Effects, Effect, Project, GroundedEvent, Grounded, OfKind;
    var j := CauseOf(t, es, h, KController, p);
    TouchedRowPresent(t, es, h, KController, p, KAgent, j, Group(es, h, KController)[p].agentId);
  }

  lemma SettlementCheck(t: Tables, es: seq<Event>, h: Head, p: nat)
    requires OrderedLog(es) && Grounded(t, es, h) && p < |Group(es, h, KSettlement)|
    ensures Check(Effects(t, Prefix(es, h, KSettlement, p)), Group(es, h, KSettlement)[p]).None?
  {
    hide Groups, Group, Prefix, EventStmts, Effects, Effect, Project, Grounded, OfKind;
    var s := Group(es, h, KSettlement)[p];
    var j := CauseOf(t, es, h, KSettlement, p);
    TouchedRowPresent(t, es, h, KSettlement, p, KForecast, j, s.id);
    if s.settledBy.Some? { DecisionKept(t, es, h, j, KSettlement, p, s.settledBy.value); }
  }

  lemma TargetTouched(e: Event, h: Head, s: Stmt)
    requires s in Stmts(e, h)
    ensures s.ResolveChallenge? || s.WithdrawChallenge? ==> TouchedBy(e, KChallenge) == Some(s.id)
    ensures s.AdjudicateAppeal? ==> TouchedBy(e, KAppeal) == Some(s.id)
  {
  }

  lemma DisputeCheck(t: Tables, es: seq<Event>, h: Head, kind: Kind, p: nat)
    requires Grounded(t, es, h) && (kind == KChallengeResolution || kind == KChallengeWithdrawal || kind == KAdjudication) && p < |Group(es, h, kind)|
    ensures Check(Effects(t, Prefix(es, h, kind, p)), Group(es, h, kind)[p]).None?
  {
    hide ReplicationDecided, MergeForecast, TouchedBy, Stmts, Groups, Group, Prefix, EventStmts, Effects, Effect, Project, GroundedEvent, Grounded, OfKind;
    var s := Group(es, h, kind)[p];
    var j := CauseOf(t, es, h, kind, p);
    TargetTouched(es[j], h, s);
    TouchedRowPresent(t, es, h, kind, p, if kind == KAdjudication then KAppeal else KChallenge, j, s.id);
  }

  /** The event that caused upsert number `p` of a deduplicated group. */
  lemma UpsertCause(es: seq<Event>, h: Head, kind: Kind, p: nat) returns (j: nat)
    requires Deduplicated(kind) && p < |Group(es, h, kind)|
    ensures p < |Touched(es, kind)|
    ensures j < |es| && TouchedBy(es[j], kind) == Some(Touched(es, kind)[p])
    ensures Group(es, h, kind)[p] == Upsert(h, kind, Touched(es, kind)[p])
  {
    hide TouchedBy, Touched;
    TouchedIds(es, kind);
    assert Touched(es, kind)[p] in Touched(es, kind);
    j :| 0 <= j < |es| && TouchedBy(es[j], kind) == Some(Touched(es, kind)[p]);
  }

  lemma DisputeUpsertCheck(t: Tables, es: seq<Event>, h: Head, kind: Kind, p: nat)
    requires OrderedLog(es) && Grounded(t, es, h) && (kind == KChallenge || kind == KAppeal) && p < |Group(es, h, kind)|
    ensures Check(Effects(t, Prefix(es, h, kind, p)), Group(es, h, kind)[p]).None?
  {
    hide Groups, Group, Prefix, EventStmts, Stmts, Effects, Effect, Project, OrderedLog, OfKind, Touched;
    var j := UpsertCause(es, h, kind, p);
    var id := Touched(es, kind)[p];
    assert GroundedEvent(Project(t, es[..j], h), es[j], h);
    ClaimKept(t, es, h, j, kind, p, if kind == KChallenge then h.challenge(id).claimId else h.appeal(id).claimId);
  }

  /** When a forecast is upserted its stored row is still the one from before the chunk. */
  lemma ForecastRowUntouched(t: Tables, es: seq<Event>, h: Head, p: nat)
    requires p < |Group(es, h, KForecast)| && p < |Touched(es, KForecast)|
    ensures Lookup(Effects(t, Prefix(es, h, KForecast, p)).forecasts, Touched(es, KForecast)[p])
         == Lookup(t.forecasts, Touched(es, KForecast)[p])
  {
    hide Groups, Group, Prefix, Touched, EventStmts, Effect, Ordered, MergeForecast;
    var id, pre := Touched(es, KForecast)[p], Prefix(es, h, KForecast, p);
    PrefixOrdered(es, h, KForecast, p);
    RunSplits(t, pre);
    ForecastNormalForm(t.forecasts, pre, id);
    PrefixEnds(es, h, KForecast, p, Target(KSettlement, IdKey(id)));
    NotYetUpserted(es, h, p);
  }

  lemma NotYetUpserted(es: seq<Event>, h: Head, p: nat)
    requires p < |Group(es, h, KForecast)| && p < |Touched(es, KForecast)|
    ensures Last(Prefix(es, h, KForecast, p), Target(KForecast, IdKey(Touched(es, KForecast)[p]))).None?
  {
    hide Groups, EventStmts, Touched, Upserts, Stmts;
    var ids := Touched(es, KForecast);
    var g, part := Target(KForecast, IdKey(ids[p])), Group(es, h, KForecast)[..p];
    TouchedIds(es, KForecast);
    UpsertsMiss(ids, h, p);
    GroupsKeepEnds(es, h, Rank(KForecast), g);
    LastOfConcat(Groups(es, h, Rank(KForecast)), part, g);
  }

  lemma UpsertsMiss(ids: seq<Id>, h: Head, p: nat)
    requires Distinct(ids) && p < |ids|
    ensures Last(Upserts(ids, h, KForecast)[..p], Target(KForecast, IdKey(ids[p]))).None?
  {
    var part, g := Upserts(ids, h, KForecast)[..p], Target(KForecast, IdKey(ids[p]));
    forall s | s in part ensures !Hits(s, g) {
      var q :| 0 <= q < p && part[q] == s;
      assert s == Upsert(h, KForecast, ids[q]);
    }
    NoHits(part, g);
  }

  lemma ForecastCheck(t: Tables, es: seq<Event>, h: Head, p: nat)
    requires Sound(t) && OrderedLog(es) && Grounded(t, es, h)
    requires p < |Group(es, h, KForecast)| && p < |Touched(es, KForecast)|
    ensures Check(Effects(t, Prefix(es, h, KForecast, p)), Group(es, h, KForecast)[p])
         == if Visible(t, es, h, Touched(es, KForecast)[p]) then None else Some(ForeignKey(KForecast))
  {
    hide Groups, Group, Prefix, EventStmts, Effects, Effect, Project, Touched, Stmts, OrderedLog, RecordedIn, ReplicationDecided;
    var j := UpsertCause(es, h, KForecast, p);
    var id, pre := Touched(es, KForecast)[p], Prefix(es, h, KForecast, p);
    var f := h.forecast(id);
    assert GroundedEvent(Project(t, es[..j], h), es[j], h);
    ClaimKept(t, es, h, j, KForecast, p, f.body.claimId);
    ForecastRowUntouched(t, es, h, p);
    var row := MergeForecast(Lookup(t.forecasts, id), f);
    if row.resolutionDecision.Some? { DecisionsPresent(t, es, h, KForecast, p, row.resolutionDecision.value); }
    if row.effectiveDecisionAtCommit.Some? {
      var d := row.effectiveDecisionAtCommit.value;
      DecisionsPresent(t, es, h, KForecast, p, d);
      if id in t.forecasts && t.forecasts[id].effectiveDecisionAtCommit.Some? {
        assert SoundForecast(t, t.forecasts[id]);
      } else {
        DecisionKept(t, es, h, j, KForecast, p, d);
      }
    }
  }

  /** Check of statement `p` of a group: only an upsert of an unresolved forecast can fail. */
  lemma CheckAt(t: Tables, es: seq<Event>, h: Head, kind: Kind, p: nat)
    requires Sound(t) && OrderedLog(es) && Grounded(t, es, h) && p < |Group(es, h, kind)|
    ensures kind == KForecast ==> p < |Touched(es, KForecast)|
    ensures Check(Effects(t, Prefix(es, h, kind, p)), Group(es, h, kind)[p])
         == if kind == KForecast && !Visible(t, es, h, Touched(es, KForecast)[p]) then Some(ForeignKey(KForecast)) else None
  {
    hide Groups, Group, Prefix, EventStmts, Stmts, Effects, Effect, Project, OrderedLog, Grounded, Sound, Touched, Visible;
    if kind == KAgent { var j := UpsertCause(es, h, KAgent, p); }
    else if kind == KForecast {
      var j := UpsertCause(es, h, KForecast, p);
      ForecastCheck(t, es, h, p);
    }
    else if Deduplicated(kind) { DisputeUpsertCheck(t, es, h, kind, p); }
    else if Rank(kind) < 8 { RegistryCheck(t, es, h, kind, p); }
    else if kind == KController { ControllerCheck(t, es, h, p); }
    else if kind == KSettlement { SettlementCheck(t, es, h, p); }
    else { DisputeCheck(t, es, h, kind, p); }
  }

  // ----- the outcome of the transaction -----

  /** Statement `i` of the list raises this, when the ones before it have run. */
  function ErrorAt(t: Tables, ss: seq<Stmt>, i: nat): Option<StmtError>
    requires i < |ss|
  {
    Check(Effects(t, ss[..i]), ss[i])
  }

  lemma ErrorOfPrefix(t: Tables, ss: seq<Stmt>, n: nat, i: nat)
    requires i < n <= |ss|
    ensures ErrorAt(t, ss[..n], i) == ErrorAt(t, ss, i)
  {
    hide Effects, Check;
    assert ss[..n][..i] == ss[..i];
  }

  lemma {:induction false} ExecWithoutErrors(t: Tables, ss: seq<Stmt>)
    requires forall i :: 0 <= i < |ss| ==> ErrorAt(t, ss, i).None?
    ensures Exec(t, ss) == Done(Effects(t, ss))
  {
    hide Check, Effect;
    if ss != [] {
      var init := ss[..|ss| - 1];
      forall i | 0 <= i < |init| ensures ErrorAt(t, init, i).None? { ErrorOfPrefix(t, ss, |ss| - 1, i); }
      ExecWithoutErrors(t, init);
      assert ErrorAt(t, ss, |ss| - 1).None?;
    }
  }

  /** A run that fails somewhere fails with the error of its first failing statement. */
  lemma {:induction false} ExecWithErrors(t: Tables, ss: seq<Stmt>, k: nat, e: StmtError)
    requires k < |ss| && ErrorAt(t, ss, k).Some?
    requires forall i :: 0 <= i < |ss| ==> ErrorAt(t, ss, i).None? || ErrorAt(t, ss, i) == Some(e)
    ensures Exec(t, ss) == Failed(e)
  {
    hide Check, Effect;
    var last := |ss| - 1;
    var init := ss[..last];
    forall i | 0 <= i < last ensures ErrorAt(t, init, i) == ErrorAt(t, ss, i) { ErrorOfPrefix(t, ss, last, i); }
    if i :| 0 <= i < last && ErrorAt(t, ss, i).Some? {
      ExecWithErrors(t, init, i, e);
    } else {
      forall i | 0 <= i < last ensures ErrorAt(t, init, i).None? { assert ErrorAt(t, init, i) == ErrorAt(t, ss, i); }
      ExecWithoutErrors(t, init);
      assert ErrorAt(t, ss, last).Some?;
    }
  }

  /**
    The exact outcome of a chunk: it commits the projection of its events if and only if every
    forecast it touches refers to a decision recorded by the end of the chunk; otherwise it
    fails on that foreign key. No "was not present" error and no other constraint can fire.
  */
  lemma ChunkOutcomeExact(t: Tables, es: seq<Event>, h: Head)
    requires Sound(t) && OrderedLog(es) && Grounded(t, es, h)
    ensures Exec(t, BatchStmts(es, h)) ==
            if AllVisible(t, es, h) then Done(Project(t, es, h)) else Failed(ForeignKey(KForecast))
    ensures AllVisible(t, es, h) ==> Sound(Project(t, es, h))
  {
    hide BatchStmts, Groups, Group, Prefix, Effects, Effect, Project, Exec, Check, Sound, OrderedLog, Grounded, Visible, TouchedForecasts;
    var ss := BatchStmts(es, h);
    forall i | 0 <= i < |ss|
      ensures ErrorAt(t, ss, i).None? || ErrorAt(t, ss, i) == Some(ForeignKey(KForecast))
      ensures AllVisible(t, es, h) ==> ErrorAt(t, ss, i).None?
    {
      var kind, p := Locate(es, h, i);
      CheckAt(t, es, h, kind, p);
      if kind == KForecast { assert Touched(es, KForecast)[p] in TouchedForecasts(es); }
    }
    if AllVisible(t, es, h) {
      ExecWithoutErrors(t, ss);
      BatchIsProjection(t, es, h);
      ExecIsSound(t, ss);
    } else {
      var f :| f in TouchedForecasts(es) && !Visible(t, es, h, f);
      var k := HiddenForecastFails(t, es, h, f);
      ExecWithErrors(t, ss, k, ForeignKey(KForecast));
    }
  }

  lemma HiddenForecastFails(t: Tables, es: seq<Event>, h: Head, f: Id) returns (k: nat)
    requires Sound(t) && OrderedLog(es) && Grounded(t, es, h)
    requires f in TouchedForecasts(es) && !Visible(t, es, h, f)
    ensures k < |BatchStmts(es, h)| && ErrorAt(t, BatchStmts(es, h), k).Some?
  {
    hide BatchStmts, Groups, Prefix, Effects, Project, Check, Sound, OrderedLog, Grounded, Visible, TouchedForecasts;
    var p :| 0 <= p < |Touched(es, KForecast)| && Touched(es, KForecast)[p] == f;
    assert |Group(es, h, KForecast)| == |Touched(es, KForecast)|;
    k := BatchPosition(es, h, KForecast, p);
    CheckAt(t, es, h, KForecast, p);
  }

  lemma {:induction false} ConcatPosition<B>(n: nat, f: nat -> seq<B>, r: nat, p: nat)
    requires r < n && p < |f(r)|
    ensures |Concat(r, f)| + p < |Concat(n, f)|
    ensures Concat(n, f)[|Concat(r, f)| + p] == f(r)[p]
    ensures Concat(n, f)[..|Concat(r, f)| + p] == Concat(r, f) + f(r)[..p]
  {
    if r < n - 1 { ConcatPosition(n - 1, f, r, p); }
  }

  lemma BatchPosition(es: seq<Event>, h: Head, kind: Kind, p: nat) returns (k: nat)
    requires p < |Group(es, h, kind)|
    ensures k < |BatchStmts(es, h)| && BatchStmts(es, h)[k] == Group(es, h, kind)[p]
    ensures BatchStmts(es, h)[..k] == Prefix(es, h, kind, p)
  {
    hide Group, Concat;
    ConcatPosition(GROUPS, GroupAt(es, h), Rank(kind), p);
    k := |Concat(Rank(kind), GroupAt(es, h))| + p;
  }
}
