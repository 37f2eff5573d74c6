/**
  Building the groups of a chunk transaction (src/indexer/projector.ts, the first half of
  `applyChunk`): loops that collect touched ids into Sets and statements into lists.
*/
module GroupBuilder {
  import opened Common
  import opened ReadModel
  import opened Projector
  import opened ChunkOutcome

  /** `touched.add(id)` for every event that `pick` selects. */
  method CollectTouched(ids: seq<Id>, es: seq<Event>, pick: Event -> Option<Id>) returns (touched: seq<Id>)
    ensures touched == Touch(ids, es, pick)
  {
    touched := ids;
    for i := 0 to |es|
      invariant touched == Touch(ids, es[..i], pick)
    {
      assert es[..i + 1][..i] == es[..i];
      var id := pick(es[i]);
      if id.Some? && id.value !in touched { touched := touched + [id.value]; }
    }
    assert es[..|es|] == es;
  }

  method CollectAgents(es: seq<Event>) returns (ids: seq<Id>)
    ensures ids == TouchedAgents(es)
  {
    hide Touch;
    ids := CollectTouched([], es, RegisteredAgent);
    ids := CollectTouched(ids, es, ControlledAgent);
    ids := CollectTouched(ids, es, ChangedAgent(BudgetDeposited));
    ids := CollectTouched(ids, es, ChangedAgent(BudgetReserved));
    ids := CollectTouched(ids, es, ChangedAgent(BudgetReleased));
    ids := CollectTouched(ids, es, ChangedAgent(BudgetConsumed));
    ids := CollectTouched(ids, es, ChangedAgent(BudgetWithdrawn));
    ids := CollectTouched(ids, es, ChangedAgent(SpendLimitUpdated));
    ids := CollectTouched(ids, es, ChangedAgent(StatusUpdated));
  }

  method CollectIds(es: seq<Event>, kind: Kind) returns (ids: seq<Id>)
    requires Deduplicated(kind)
    ensures ids == Touched(es, kind)
  {
    hide Touch, TouchedAgents;
    match kind {
      case KAgent =>
        ids := CollectAgents(es);
      case KForecast =>
        ids := CollectTouched([], es, CommittedForecast);
        ids := CollectTouched(ids, es, RevealedForecast);
        ids := CollectTouched(ids, es, SettledForecastId);
      case KChallenge =>
        ids := CollectTouched([], es, OpenedChallenge);
        ids := CollectTouched(ids, es, ResolvedChallengeId);
        ids := CollectTouched(ids, es, WithdrawnChallenge);
      case KAppeal =>
        ids := CollectTouched([], es, FiledAppeal);
        ids := CollectTouched(ids, es, AdjudicatedAppealId);
    }
  }

  /** One read of the contract state per touched id. */
  method ReadSnapshots(ids: seq<Id>, h: Head, kind: Kind) returns (ss: seq<Stmt>)
    requires Deduplicated(kind)
    ensures ss == Upserts(ids, h, kind)
  {
    ss := [];
    for i := 0 to |ids|
      invariant ss == Upserts(ids[..i], h, kind)
    {
      assert ids[..i + 1][..i] == ids[..i];
      ss := ss + [Upsert(h, kind, ids[i])];
    }
    assert ids[..|ids|] == ids;
  }

  /** The statements of one kind, event after event. */
  method CollectStatements(es: seq<Event>, h: Head, kind: Kind) returns (ss: seq<Stmt>)
    ensures ss == OfKind(EventStmts(es, h), kind)
  {
    hide Stmts, IsKind;
    ss := [];
    for i := 0 to |es|
      invariant ss == OfKind(EventStmts(es[..i], h), kind)
    {
      assert es[..i + 1][..i] == es[..i];
      var issued := Stmts(es[i], h);
      OfKindConcat(EventStmts(es[..i], h), issued, kind);
      ss := ss + OfKind(issued, kind);
    }
    assert es[..|es|] == es;
  }

  method BuildGroup(es: seq<Event>, h: Head, kind: Kind) returns (ss: seq<Stmt>)
    ensures ss == Group(es, h, kind)
  {
    if Deduplicated(kind) {
      var ids := CollectIds(es, kind);
      ss := ReadSnapshots(ids, h, kind);
    } else {
      ss := CollectStatements(es, h, kind);
    }
  }
}
