/**
  The webhook outbox, feed side (src/agents/webhooks.ts and `buildAgentRuntimeEvents` of
  src/agents/runtime-events.ts): the collector pages through the runtime feed, keeps the events
  above the subscription's cursor, enqueues one delivery for each, and moves the cursor.

  Times are integers. Event ids stand for their rank in locale order; 0 is the empty string.
*/
module Webhooks {
  import opened Common

  type Id = nat
  type Text = string

  datatype Event = Event(at: int, id: Id, kind: Text, agents: set<Text>)
  datatype Cursor = Cursor(at: Option<int>, id: Option<Id>)
  datatype Subscription = Subscription(agent: Text, types: seq<Text>, active: bool, cursor: Cursor)

  const RUNTIME_TYPES: seq<Text> := [
    "agent_request.accepted", "agent_request.rejected", "checkpoint_publication.failed",
    "checkpoint_publication.prepared", "checkpoint_publication.submitted",
    "work_item.claimable", "work_item.updated"]
  const WEBHOOK_TYPES := RUNTIME_TYPES + ["webhook.ping"]

  /** An empty list of types means all runtime types; unknown types are dropped. */
  predicate MatchesType(types: seq<Text>, kind: Text) {
    if types == [] then kind in RUNTIME_TYPES else kind in types && kind in WEBHOOK_TYPES
  }

  // ----- order -----

  predicate Below(a: Event, b: Event) {
    a.at < b.at || (a.at == b.at && a.id < b.id)
  }

  predicate AfterCursor(e: Event, c: Cursor) {
    c.at.None? || c.at.value < e.at || (c.at.value == e.at && (if c.id.Some? then c.id.value else 0) < e.id)
  }

  function InsertEvent(e: Event, es: seq<Event>): (r: seq<Event>)
    ensures multiset(r) == multiset(es) + multiset{e}
  {
    if es == [] || !Below(es[0], e) then [e] + es
    else
      assert es == [es[0]] + es[1..];
      [es[0]] + InsertEvent(e, es[1..])
  }

  /** Oldest first. */
  function Ascending(es: seq<Event>): (r: seq<Event>)
    ensures multiset(r) == multiset(es) && |r| == |es|
  {
    if es == [] then []
    else
      assert es == [es[0]] + es[1..];
      var r := InsertEvent(es[0], Ascending(es[1..]));
      assert |multiset(r)| == |multiset(es)|;
      r
  }

  function Reversed(es: seq<Event>): (r: seq<Event>)
    ensures |r| == |es| && forall i :: 0 <= i < |es| ==> r[i] == es[|es| - 1 - i]
  {
    seq(|es|, i requires 0 <= i < |es| => es[|es| - 1 - i])
  }

  /** Newest first, the order of the feed. */
  function Descending(es: seq<Event>): seq<Event> {
    Reversed(Ascending(es))
  }

  ghost predicate Rising(es: seq<Event>) {
    forall i, j :: 0 <= i < j < |es| ==> !Below(es[j], es[i])
  }

  lemma {:induction false} InsertRises(e: Event, es: seq<Event>)
    requires Rising(es)
    ensures Rising(InsertEvent(e, es))
  {
    var r := InsertEvent(e, es);
    if es != [] && Below(es[0], e) {
      InsertRises(e, es[1..]);
      forall j | 1 <= j < |r| ensures !Below(r[j], es[0]) {
        assert r[j] in multiset(InsertEvent(e, es[1..]));
        if r[j] != e { var m :| 1 <= m < |es| && es[m] == r[j]; }
      }
    }
  }

  lemma {:induction false} AscendingRises(es: seq<Event>)
    ensures Rising(Ascending(es))
  {
    if es != [] {
      AscendingRises(es[1..]);
      InsertRises(es[0], Ascending(es[1..]));
    }
  }

  lemma SameMembers(es: seq<Event>)
    ensures forall e :: e in Ascending(es) <==> e in es
    ensures forall e :: e in Descending(es) <==> e in es
  {
    forall e ensures e in Ascending(es) <==> e in es { assert e in multiset(Ascending(es)) <==> e in multiset(es); }
    forall e | e in Ascending(es) ensures e in Descending(es) {
      var i :| 0 <= i < |es| && Ascending(es)[i] == e;
      assert Descending(es)[|es| - 1 - i] == e;
    }
  }

  // ----- the feed -----

  predicate Shown(e: Event, agent: Text, since: Option<int>) {
    (agent == "" || agent in e.agents) && (since.Some? ==> e.at >= since.value)
  }

  function Filter(feed: seq<Event>, agent: Text, since: Option<int>): (r: seq<Event>)
    ensures forall e :: e in r <==> e in feed && Shown(e, agent, since)
  {
    if feed == [] then []
    else
      assert feed == [feed[0]] + feed[1..];
      (if Shown(feed[0], agent, since) then [feed[0]] else []) + Filter(feed[1..], agent, since)
  }

  /** Everything the feed shows to the agent, newest first. */
  function Candidates(feed: seq<Event>, agent: Text, since: Option<int>): seq<Event> {
    Descending(Filter(feed, agent, since))
  }

  function Slice(es: seq<Event>, offset: nat, count: nat): seq<Event> {
    es[Min(offset, |es|)..Min(offset + count, |es|)]
  }

  /** `buildAgentRuntimeEvents`: the page size is clamped to 100. */
  function Page(feed: seq<Event>, agent: Text, since: Option<int>, limit: int, offset: nat): seq<Event> {
    Slice(Candidates(feed, agent, since), offset, Max(1, Min(limit, 100)))
  }

  /** What the paging loop gathers: with a page limit above 100 it stops after the first page. */
  function Gathered(shown: seq<Event>, pageLimit: int): seq<Event> {
    if pageLimit <= 100 then shown else Slice(shown, 0, 100)
  }

  method CollectPages(feed: seq<Event>, agent: Text, since: Option<int>, pageLimit: int) returns (items: seq<Event>)
    requires pageLimit >= 1
    ensures items == Gathered(Candidates(feed, agent, since), pageLimit)
  {
    hide Candidates;
    ghost var shown := Candidates(feed, agent, since);
    items := [];
    var offset := 0;
    while true
      invariant items == Slice(shown, 0, offset) && (pageLimit <= 100 || offset == 0)
      decreases Max(0, |shown| + 1 - offset)
    {
      var page := Page(feed, agent, since, pageLimit, offset);
      items := items + page;
      if |page| < pageLimit { break; }
      offset := offset + pageLimit;
    }
  }

  // ----- fresh events -----

  /** `Map.set`: replaces the entry in place or appends one. */
  function SetEntry(m: seq<Event>, e: Event): seq<Event> {
    if m == [] then [e] else if m[0].id == e.id then [e] + m[1..] else [m[0]] + SetEntry(m[1..], e)
  }

  function FreshEntries(items: seq<Event>, c: Cursor): seq<Event> {
    if items == [] then []
    else
      var m, e := FreshEntries(items[..|items| - 1], c), items[|items| - 1];
      if AfterCursor(e, c) then SetEntry(m, e) else m
  }

  function Fresh(items: seq<Event>, c: Cursor): seq<Event> {
    Ascending(FreshEntries(items, c))
  }

  /** `filterFreshAgentRuntimeEvents`: a loop that fills a Map keyed by event id, then a sort. */
  method FilterFresh(items: seq<Event>, c: Cursor) returns (picked: seq<Event>)
    ensures picked == Fresh(items, c)
  {
    var unique: seq<Event> := [];
    for i := 0 to |items|
      invariant unique == FreshEntries(items[..i], c)
    {
      assert items[..i + 1][..i] == items[..i];
      if AfterCursor(items[i], c) { unique := SetEntry(unique, items[i]); }
    }
    assert items[..|items|] == items;
    picked := Ascending(unique);
  }

  /** An id names one event. */
  ghost predicate OneEventPerId(es: seq<Event>) {
    forall a, b :: a in es && b in es && a.id == b.id ==> a == b
  }

  ghost predicate DistinctIds(es: seq<Event>) {
    forall i, j :: 0 <= i < j < |es| ==> es[i].id != es[j].id
  }

  lemma {:induction false} SetEntryExact(m: seq<Event>, e: Event)
    requires DistinctIds(m) && forall x :: x in m && x.id == e.id ==> x == e
    ensures DistinctIds(SetEntry(m, e))
    ensures forall x :: x in SetEntry(m, e) <==> x in m || x == e
  {
    if m != [] {
      assert m == [m[0]] + m[1..];
      if m[0].id != e.id {
        SetEntryExact(m[1..], e);
        var r := SetEntry(m[1..], e);
        forall j | 0 <= j < |r| ensures r[j].id != m[0].id {
          assert r[j] in r;
          if r[j] != e { var k :| 0 <= k < |m| - 1 && m[1..][k] == r[j]; assert m[k + 1].id != m[0].id; }
        }
      } else {
        assert m[0] == e;
      }
    }
  }

  lemma {:induction false} FreshEntriesExact(items: seq<Event>, c: Cursor)
    requires OneEventPerId(items)
    ensures DistinctIds(FreshEntries(items, c))
    ensures forall x :: x in FreshEntries(items, c) <==> x in items && AfterCursor(x, c)
  {
    if items != [] {
      var init, e := items[..|items| - 1], items[|items| - 1];
      assert items == init + [e];
      FreshEntriesExact(init, c);
      if AfterCursor(e, c) { SetEntryExact(FreshEntries(init, c), e); }
    }
  }

  lemma DistinctSorted(es: seq<Event>)
    requires DistinctIds(es)
    ensures DistinctIds(Ascending(es))
  {
    var r := Ascending(es);
    SameMembers(es);
    forall i, j | 0 <= i < j < |r| ensures r[i].id != r[j].id {
      assert r[i] in es && r[j] in es;
      OccursOnce(es, r[i]);
      if r[i] == r[j] { OccursTwice(r, i, j); }
    }
  }

  lemma OccursTwice(r: seq<Event>, i: nat, j: nat)
    requires i < j < |r| && r[i] == r[j]
    ensures multiset(r)[r[i]] >= 2
  {
    assert r == r[..j] + r[j..];
    assert r[..j][i] == r[i] && r[j..][0] == r[i];
    assert r[i] in multiset(r[..j]) && r[i] in multiset(r[j..]);
  }

  lemma {:induction false} OccursOnce(es: seq<Event>, e: Event)
    requires DistinctIds(es)
    ensures multiset(es)[e] <= 1
  {
    if es != [] {
      assert es == [es[0]] + es[1..];
      OccursOnce(es[1..], e);
      if es[0] == e {
        forall j | 0 <= j < |es| - 1 ensures es[1..][j] != e { assert es[j + 1].id != es[0].id; }
        assert e !in multiset(es[1..]);
      }
    }
  }

  /** The fresh events: exactly the gathered ones above the cursor, once each, oldest first. */
  lemma FreshExact(items: seq<Event>, c: Cursor)
    requires OneEventPerId(items)
    ensures Rising(Fresh(items, c)) && DistinctIds(Fresh(items, c))
    ensures forall x :: x in Fresh(items, c) <==> x in items && AfterCursor(x, c)
  {
    FreshEntriesExact(items, c);
    DistinctSorted(FreshEntries(items, c));
    AscendingRises(FreshEntries(items, c));
    SameMembers(FreshEntries(items, c));
  }

  // ----- the outbox -----

  datatype Status = Pending | Retrying | Delivered | Failed

  datatype Delivery = Delivery(sub: Id, event: Event, status: Status, attempts: nat, nextAttemptAt: int)

  datatype Outbox = Outbox(rows: map<Id, Delivery>, nextId: Id)

  ghost predicate Keyed(o: Outbox) {
    && (forall d :: d in o.rows ==> d < o.nextId)
    && (forall a, b :: a in o.rows && b in o.rows && SameKey(o.rows[a], o.rows[b]) ==> a == b)
  }

  predicate SameKey(a: Delivery, b: Delivery) {
    a.sub == b.sub && a.event.id == b.event.id
  }

  predicate Queued(o: Outbox, sub: Id, event: Id) {
    exists d :: d in o.rows && o.rows[d].sub == sub && o.rows[d].event.id == event
  }

  /** INSERT … ON CONFLICT (subscription_id, event_id): an existing row keeps everything. */
  function Enqueue(o: Outbox, sub: Id, e: Event, now: int): Outbox {
    if Queued(o, sub, e.id) then o else Outbox(o.rows[o.nextId := Delivery(sub, e, Pending, 0, now)], o.nextId + 1)
  }

  function EnqueueAll(o: Outbox, sub: Id, types: seq<Text>, es: seq<Event>, now: int): Outbox {
    if es == [] then o
    else
      var prior, e := EnqueueAll(o, sub, types, es[..|es| - 1], now), es[|es| - 1];
      if MatchesType(types, e.kind) then Enqueue(prior, sub, e, now) else prior
  }

  /** Old rows are untouched; every new row is a fresh pending delivery for a wanted event. */
  ghost predicate Extends(o: Outbox, u: Outbox, sub: Id, types: seq<Text>, es: seq<Event>, now: int) {
    && o.nextId <= u.nextId
    && (forall d :: d in o.rows ==> d in u.rows && u.rows[d] == o.rows[d])
    && (forall d :: d in u.rows && d !in o.rows ==>
          exists e :: e in es && MatchesType(types, e.kind) && u.rows[d] == Delivery(sub, e, Pending, 0, now))
  }

  /** Exactly once: each wanted event has a delivery, by the key only one, and nothing else changed. */
  lemma {:induction false} EnqueueAllExact(o: Outbox, sub: Id, types: seq<Text>, es: seq<Event>, now: int)
    requires Keyed(o)
    ensures var u := EnqueueAll(o, sub, types, es, now);
      && Keyed(u) && Extends(o, u, sub, types, es, now)
      && forall e :: e in es && MatchesType(types, e.kind) ==> Queued(u, sub, e.id)
  {
    hide MatchesType;
    if es != [] {
      var init, e := es[..|es| - 1], es[|es| - 1];
      assert es == init + [e];
      EnqueueAllExact(o, sub, types, init, now);
      var p := EnqueueAll(o, sub, types, init, now);
      EnqueueOne(p, sub, e, now);
      var u := EnqueueAll(o, sub, types, es, now);
      forall d | d in u.rows && d !in o.rows
        ensures exists x :: x in es && MatchesType(types, x.kind) && u.rows[d] == Delivery(sub, x, Pending, 0, now)
      {
        if d in p.rows {
          var x :| x in init && MatchesType(types, x.kind) && p.rows[d] == Delivery(sub, x, Pending, 0, now);
          assert x in es;
        } else {
          assert e in es;
        }
      }
      forall x | x in es && MatchesType(types, x.kind) ensures Queued(u, sub, x.id) {
        if x in init { assert Queued(p, sub, x.id); }
      }
    }
  }

  lemma EnqueueOne(o: Outbox, sub: Id, e: Event, now: int)
    requires Keyed(o)
    ensures var u := Enqueue(o, sub, e, now);
      && Keyed(u) && Queued(u, sub, e.id) && o.nextId <= u.nextId
      && (forall d :: d in o.rows ==> d in u.rows && u.rows[d] == o.rows[d])
      && (forall d :: d in u.rows && d !in o.rows ==> u.rows[d] == Delivery(sub, e, Pending, 0, now))
      && (forall k, x :: Queued(o, k, x) ==> Queued(u, k, x))
  {
    var u := Enqueue(o, sub, e, now);
    if u != o {
      assert u.rows[o.nextId].sub == sub && u.rows[o.nextId].event.id == e.id;
    }
    forall k, x | Queued(o, k, x) ensures Queued(u, k, x) {
      var d :| d in o.rows && o.rows[d].sub == k && o.rows[d].event.id == x;
      assert d in u.rows && u.rows[d] == o.rows[d];
    }
  }

  // ----- one round for one subscription -----

  function PageLimit(requested: Option<int>): (r: int)
    ensures 1 <= r <= 500
    ensures requested.None? ==> r == 100
    ensures requested.Some? && 1 <= requested.value <= 500 ==> r == requested.value
  {
    Max(1, Min(if requested.Some? then requested.value else 100, 500))
  }

  function Collected(feed: seq<Event>, sub: Subscription, pageLimit: int): seq<Event> {
    Fresh(Gathered(Candidates(feed, sub.agent, sub.cursor.at), pageLimit), sub.cursor)
  }

  function Moved(c: Cursor, picked: seq<Event>): Cursor {
    if picked == [] then c else Cursor(Some(picked[|picked| - 1].at), Some(picked[|picked| - 1].id))
  }

  /** The events the feed shows to the subscription above its cursor. */
  predicate Wanted(feed: seq<Event>, sub: Subscription, e: Event) {
    e in feed && Shown(e, sub.agent, None) && AfterCursor(e, sub.cursor)
  }

  lemma ShownAll(feed: seq<Event>, sub: Subscription)
    requires OneEventPerId(feed)
    ensures OneEventPerId(Candidates(feed, sub.agent, sub.cursor.at))
    ensures forall e :: e in Candidates(feed, sub.agent, sub.cursor.at) && AfterCursor(e, sub.cursor) <==> Wanted(feed, sub, e)
  {
    SameMembers(Filter(feed, sub.agent, sub.cursor.at));
  }

  /**
    With a page limit of at most 100 the collector finds exactly the wanted events; above 100 it
    does so exactly when none of them lies past the hundredth event the feed shows.
  */
  lemma CollectedExact(feed: seq<Event>, sub: Subscription, pageLimit: int)
    requires OneEventPerId(feed)
    ensures Rising(Collected(feed, sub, pageLimit)) && DistinctIds(Collected(feed, sub, pageLimit))
    ensures forall e :: e in Collected(feed, sub, pageLimit) ==> Wanted(feed, sub, e)
    ensures (forall e :: Wanted(feed, sub, e) ==> e in Collected(feed, sub, pageLimit)) <==>
      pageLimit <= 100 || forall i :: 100 <= i < |Candidates(feed, sub.agent, sub.cursor.at)| ==>
        !AfterCursor(Candidates(feed, sub.agent, sub.cursor.at)[i], sub.cursor)
        || Candidates(feed, sub.agent, sub.cursor.at)[i] in Candidates(feed, sub.agent, sub.cursor.at)[..100]
  {
    var shown := Candidates(feed, sub.agent, sub.cursor.at);
    ShownAll(feed, sub);
    var items := Gathered(shown, pageLimit);
    assert forall e :: e in items ==> e in shown;
    FreshExact(items, sub.cursor);
    if pageLimit > 100 && |shown| > 100 {
      assert items == shown[..100];
      if forall e :: Wanted(feed, sub, e) ==> e in Collected(feed, sub, pageLimit) {
        forall i | 100 <= i < |shown| && AfterCursor(shown[i], sub.cursor) ensures shown[i] in shown[..100] {
          assert Wanted(feed, sub, shown[i]);
        }
      } else {
        var e :| Wanted(feed, sub, e) && e !in Collected(feed, sub, pageLimit);
        assert e in shown && e !in items;
        var i :| 0 <= i < |shown| && shown[i] == e;
        assert i < 100 ==> shown[i] in items;
      }
    } else if pageLimit > 100 {
      assert items == shown;
    }
  }

  /**
    The cursor moves to the largest fresh event, strictly up, and afterwards nothing collected is
    above it: what the same feed shows is not collected twice.
  */
  lemma CursorRises(feed: seq<Event>, sub: Subscription, pageLimit: int)
    requires OneEventPerId(feed)
    ensures var picked := Collected(feed, sub, pageLimit);
      var c := Moved(sub.cursor, picked);
      && (forall e :: e in picked ==> !AfterCursor(e, c))
      && (picked != [] ==> picked[|picked| - 1] in feed && AfterCursor(picked[|picked| - 1], sub.cursor))
      && (picked != [] ==> c == Cursor(Some(picked[|picked| - 1].at), Some(picked[|picked| - 1].id)))
      && (forall e :: AfterCursor(e, c) ==> AfterCursor(e, sub.cursor))
  {
    hide Collected, AfterCursor, Below, DistinctIds, Candidates;
    CollectedExact(feed, sub, pageLimit);
    var picked := Collected(feed, sub, pageLimit);
    if picked != [] {
      assert picked[|picked| - 1] in picked;
      TopOfRising(picked, sub.cursor);
    }
  }

  lemma TopOfRising(picked: seq<Event>, c: Cursor)
    requires picked != [] && Rising(picked) && AfterCursor(picked[|picked| - 1], c)
    ensures forall e :: e in picked ==> !AfterCursor(e, Moved(c, picked))
    ensures forall e :: AfterCursor(e, Moved(c, picked)) ==> AfterCursor(e, c)
  {
    var last := picked[|picked| - 1];
    forall e | e in picked ensures !AfterCursor(e, Moved(c, picked)) {
      var i :| 0 <= i < |picked| && picked[i] == e;
      assert i == |picked| - 1 || !Below(last, picked[i]);
    }
  }

  /** A round that crashed after at most `done` of its enqueues, before it moved the cursor. */
  function Crashed(o: Outbox, id: Id, sub: Subscription, picked: seq<Event>, done: nat, now: int): Outbox {
    EnqueueAll(o, id, sub.types, picked[..Min(done, |picked|)], now)
  }

  /**
    Exactly-once enqueue: whatever an earlier round had enqueued before it crashed, on the same
    feed or on an older one that the present feed extends, a completed round with a page limit of
    at most 100 leaves exactly one delivery for every wanted event of a matching type, leaves all
    rows that were there before untouched, and adds no other row.
  */
  lemma ExactlyOnce(o: Outbox, id: Id, sub: Subscription, before: seq<Event>, feed: seq<Event>, done: nat, earlier: int, now: int, pageLimit: int)
    requires Keyed(o) && OneEventPerId(before) && OneEventPerId(feed) && pageLimit <= 100
    requires forall e :: e in before ==> e in feed
    ensures var half := Crashed(o, id, sub, Collected(before, sub, pageLimit), done, earlier);
      var u := EnqueueAll(half, id, sub.types, Collected(feed, sub, pageLimit), now);
      && Keyed(u)
      && (forall e :: Wanted(feed, sub, e) && MatchesType(sub.types, e.kind) ==> Queued(u, id, e.id))
      && (forall d :: d in half.rows ==> d in u.rows && u.rows[d] == half.rows[d])
      && (forall d :: d in o.rows ==> d in u.rows && u.rows[d] == o.rows[d])
      && (forall d :: d in u.rows && d !in o.rows ==> NewRow(u.rows[d], id, sub, feed))
  {
    hide MatchesType, AfterCursor;
    var first, second := Collected(before, sub, pageLimit), Collected(feed, sub, pageLimit);
    CollectedExact(before, sub, pageLimit);
    CollectedExact(feed, sub, pageLimit);
    var part := first[..Min(done, |first|)];
    EnqueueAllExact(o, id, sub.types, part, earlier);
    var half := Crashed(o, id, sub, first, done, earlier);
    EnqueueAllExact(half, id, sub.types, second, now);
    var u := EnqueueAll(half, id, sub.types, second, now);
    forall d | d in u.rows && d !in o.rows ensures NewRow(u.rows[d], id, sub, feed) {
      if d in half.rows {
        var e :| e in part && MatchesType(sub.types, e.kind) && half.rows[d] == Delivery(id, e, Pending, 0, earlier);
        assert e in first;
      } else {
        var e :| e in second && MatchesType(sub.types, e.kind) && u.rows[d] == Delivery(id, e, Pending, 0, now);
      }
    }
  }

  predicate NewRow(d: Delivery, id: Id, sub: Subscription, feed: seq<Event>) {
    d.sub == id && Wanted(feed, sub, d.event) && MatchesType(sub.types, d.event.kind)
    && d.status == Pending && d.attempts == 0
  }

  lemma DescendingFalls(es: seq<Event>)
    ensures forall i, j :: 0 <= i < j < |Descending(es)| ==> !Below(Descending(es)[i], Descending(es)[j])
  {
    AscendingRises(es);
    var a, d := Ascending(es), Descending(es);
    forall i, j | 0 <= i < j < |d| ensures !Below(d[i], d[j]) {
      assert d[i] == a[|a| - 1 - i] && d[j] == a[|a| - 1 - j];
    }
  }

  lemma OversizedPage(feed: seq<Event>, sub: Subscription, pageLimit: int, i: nat)
    requires OneEventPerId(feed) && pageLimit > 100
    requires 100 <= i < |Candidates(feed, sub.agent, sub.cursor.at)|
    requires AfterCursor(Candidates(feed, sub.agent, sub.cursor.at)[i], sub.cursor)
    ensures Collected(feed, sub, pageLimit) != []
    ensures !AfterCursor(Candidates(feed, sub.agent, sub.cursor.at)[i], Moved(sub.cursor, Collected(feed, sub, pageLimit)))
    ensures forall e :: e in Collected(feed, sub, pageLimit) ==> e in Candidates(feed, sub.agent, sub.cursor.at)[..100]
  {
    hide FreshEntries, Ascending, Filter, Reversed, Descending;
    var shown := Candidates(feed, sub.agent, sub.cursor.at);
    DescendingFalls(Filter(feed, sub.agent, sub.cursor.at));
    ShownAll(feed, sub);
    var items := Gathered(shown, pageLimit);
    assert items == shown[..100] && items[0] == shown[0];
    assert !Below(shown[0], shown[i]);
    assert AfterCursor(shown[0], sub.cursor);
    FreshExact(items, sub.cursor);
    assert shown[0] in Collected(feed, sub, pageLimit);
    CursorRises(feed, sub, pageLimit);
  }

  /** One later round: the feed it sees, its page limit and its time. */
  datatype SyncRound = SyncRound(feed: seq<Event>, pageLimit: int, now: int)

  /** The outbox and the subscription after any number of completed rounds. */
  function AfterRounds(o: Outbox, id: Id, sub: Subscription, rounds: seq<SyncRound>): (Outbox, Subscription) {
    if rounds == [] then (o, sub)
    else
      var (p, s) := AfterRounds(o, id, sub, rounds[..|rounds| - 1]);
      var r := rounds[|rounds| - 1];
      var picked := Collected(r.feed, s, r.pageLimit);
      (EnqueueAll(p, id, s.types, picked, r.now), s.(cursor := Moved(s.cursor, picked)))
  }

  /** In every feed an id names one event, and `e` is the event of its id. */
  ghost predicate NamesOne(rounds: seq<SyncRound>, e: Event) {
    forall i :: 0 <= i < |rounds| ==> OneEventPerId(rounds[i].feed) && forall x :: x in rounds[i].feed && x.id == e.id ==> x == e
  }

  lemma StaysUnqueued(o: Outbox, id: Id, types: seq<Text>, picked: seq<Event>, now: int, e: Event)
    requires Keyed(o) && !Queued(o, id, e.id) && forall x :: x in picked ==> x.id != e.id
    ensures Keyed(EnqueueAll(o, id, types, picked, now)) && !Queued(EnqueueAll(o, id, types, picked, now), id, e.id)
  {
    hide MatchesType;
    EnqueueAllExact(o, id, types, picked, now);
  }

  /** What is not above the cursor is never enqueued again, in any later round on any feed. */
  lemma {:induction false} NeverEnqueued(o: Outbox, id: Id, sub: Subscription, rounds: seq<SyncRound>, e: Event)
    requires Keyed(o) && !Queued(o, id, e.id) && !AfterCursor(e, sub.cursor) && NamesOne(rounds, e)
    ensures var (u, s) := AfterRounds(o, id, sub, rounds);
      Keyed(u) && !Queued(u, id, e.id) && !AfterCursor(e, s.cursor)
  {
    hide Collected, AfterCursor, EnqueueAll, Queued, Keyed, Moved;
    if rounds != [] {
      var r := rounds[|rounds| - 1];
      NeverEnqueued(o, id, sub, rounds[..|rounds| - 1], e);
      var (p, s) := AfterRounds(o, id, sub, rounds[..|rounds| - 1]);
      assert OneEventPerId(r.feed);
      CollectedExact(r.feed, s, r.pageLimit);
      CursorRises(r.feed, s, r.pageLimit);
      var picked := Collected(r.feed, s, r.pageLimit);
      forall x | x in picked ensures x.id != e.id { assert Wanted(r.feed, s, x); }
      StaysUnqueued(p, id, s.types, picked, r.now, e);
    }
  }

  /**
    A page limit above 100 loses events for good: an event that lies past the hundredth shown one
    is not collected, and neither this round nor any later round, on whatever feeds and with
    whatever page limits, ever enqueues it.
  */
  lemma OversizedPageLoses(o: Outbox, id: Id, sub: Subscription, round: SyncRound, later: seq<SyncRound>, i: nat)
    requires Keyed(o) && round.pageLimit > 100 && 100 <= i < |Candidates(round.feed, sub.agent, sub.cursor.at)|
    requires var shown := Candidates(round.feed, sub.agent, sub.cursor.at);
      && AfterCursor(shown[i], sub.cursor) && shown[i] !in shown[..100]
      && NamesOne([round] + later, shown[i]) && !Queued(o, id, shown[i].id)
    ensures var e := Candidates(round.feed, sub.agent, sub.cursor.at)[i];
      && Wanted(round.feed, sub, e) && e !in Collected(round.feed, sub, round.pageLimit)
      && !Queued(AfterRounds(o, id, sub, [round] + later).0, id, e.id)
  {
    hide Candidates, Collected, Moved, AfterCursor, EnqueueAll, Queued, Keyed;
    var shown := Candidates(round.feed, sub.agent, sub.cursor.at);
    var e, picked := shown[i], Collected(round.feed, sub, round.pageLimit);
    assert ([round] + later)[0] == round;
    OversizedPage(round.feed, sub, round.pageLimit, i);
    ShownAll(round.feed, sub);
    assert e in shown;
    CollectedExact(round.feed, sub, round.pageLimit);
    forall x | x in picked ensures x.id != e.id { assert Wanted(round.feed, sub, x); }
    StaysUnqueued(o, id, sub.types, picked, round.now, e);
    var next := sub.(cursor := Moved(sub.cursor, picked));
    forall k | 0 <= k < |later| ensures OneEventPerId(later[k].feed) && forall x :: x in later[k].feed && x.id == e.id ==> x == e {
      assert ([round] + later)[k + 1] == later[k];
    }
    NeverEnqueued(EnqueueAll(o, id, sub.types, picked, round.now), id, next, later, e);
    RoundsFromFirst(o, id, sub, round, later);
  }

  lemma {:induction false} RoundsFromFirst(o: Outbox, id: Id, sub: Subscription, round: SyncRound, later: seq<SyncRound>)
    ensures var picked := Collected(round.feed, sub, round.pageLimit);
      AfterRounds(o, id, sub, [round] + later)
      == AfterRounds(EnqueueAll(o, id, sub.types, picked, round.now), id, sub.(cursor := Moved(sub.cursor, picked)), later)
  {
    hide Collected, EnqueueAll, Moved;
    if later == [] {
      assert [round] + later == [round] && [round][..0] == [];
    } else {
      var all := [round] + later;
      assert all[..|all| - 1] == [round] + later[..|later| - 1];
      RoundsFromFirst(o, id, sub, round, later[..|later| - 1]);
    }
  }

  /** A feed of a hundred and one events of one agent, one a millisecond. */
  function BusyEvent(i: nat): Event {
    Event(i, i + 1, "work_item.updated", {"agent"})
  }

  const BUSY_FEED: seq<Event> := seq(101, i requires 0 <= i < 101 => BusyEvent(i))
  const NEW_SUBSCRIPTION := Subscription("agent", [], true, Cursor(None, None))

  lemma {:induction false} FilterKeepsAll(feed: seq<Event>, agent: Text, since: Option<int>)
    requires forall e :: e in feed ==> Shown(e, agent, since)
    ensures Filter(feed, agent, since) == feed
  {
    hide Shown;
    if feed != [] { FilterKeepsAll(feed[1..], agent, since); }
  }

  lemma BusyCandidates()
    ensures var shown := Candidates(BUSY_FEED, "agent", None);
      |shown| == 101 && DistinctIds(BUSY_FEED) && OneEventPerId(BUSY_FEED)
      && (forall e :: e in shown <==> e in BUSY_FEED) && shown[100] !in shown[..100]
  {
    hide Ascending, Filter;
    forall e | e in BUSY_FEED ensures Shown(e, "agent", None) {
      var i :| 0 <= i < 101 && BUSY_FEED[i] == e;
      assert e == BusyEvent(i);
    }
    FilterKeepsAll(BUSY_FEED, "agent", None);
    SameMembers(BUSY_FEED);
    forall i, j | 0 <= i < j < 101 ensures BUSY_FEED[i].id != BUSY_FEED[j].id {
      assert BUSY_FEED[i] == BusyEvent(i) && BUSY_FEED[j] == BusyEvent(j);
    }
    DistinctSorted(BUSY_FEED);
    OldestLast(BUSY_FEED);
  }

  lemma OldestLast(feed: seq<Event>)
    requires feed != [] && DistinctIds(Ascending(feed))
    ensures var d := Descending(feed); |d| == |feed| && d[|feed| - 1] !in d[..|feed| - 1]
  {
    hide Ascending, Reversed;
    var a, d, last := Ascending(feed), Descending(feed), |feed| - 1;
    forall k | 0 <= k < last ensures d[k] != d[last] { assert d[k] == a[last - k] && d[last] == a[0]; }
  }

  /** On it a new subscription with page limit 101 misses an event and never gets a delivery for it. */
  lemma BusyFeedLosesOne(id: Id, later: seq<SyncRound>) returns (e: Event)
    requires forall x :: x in BUSY_FEED ==> NamesOne(later, x)
    ensures e in BUSY_FEED && Wanted(BUSY_FEED, NEW_SUBSCRIPTION, e) && MatchesType(NEW_SUBSCRIPTION.types, e.kind)
    ensures e !in Collected(BUSY_FEED, NEW_SUBSCRIPTION, 101)
    ensures !Queued(AfterRounds(Outbox(map[], 1), id, NEW_SUBSCRIPTION, [SyncRound(BUSY_FEED, 101, 0)] + later).0, id, e.id)
  {
    hide Collected, EnqueueAll, AfterRounds, Candidates, DistinctIds;
    BusyCandidates();
    var shown := Candidates(BUSY_FEED, "agent", None);
    e := shown[100];
    assert e in shown;
    var i :| 0 <= i < 101 && BUSY_FEED[i] == e;
    assert e == BusyEvent(i);
    NamesOneMore(SyncRound(BUSY_FEED, 101, 0), later, e);
    OversizedPageLoses(Outbox(map[], 1), id, NEW_SUBSCRIPTION, SyncRound(BUSY_FEED, 101, 0), later, 100);
  }

  lemma NamesOneMore(round: SyncRound, later: seq<SyncRound>, e: Event)
    requires OneEventPerId(round.feed) && e in round.feed && NamesOne(later, e)
    ensures NamesOne([round] + later, e)
  {
    forall k | 0 <= k < |[round] + later|
      ensures OneEventPerId(([round] + later)[k].feed) && forall x :: x in ([round] + later)[k].feed && x.id == e.id ==> x == e
    {
      if k > 0 { assert ([round] + later)[k] == later[k - 1]; }
    }
  }

  // ----- any rounds on any feeds -----

  /** Some round shows the event above the cursor that the rounds before it have left. */
  ghost predicate MetAbove(o: Outbox, id: Id, sub: Subscription, rounds: seq<SyncRound>, e: Event) {
    exists k :: 0 <= k < |rounds| && WantedAt(o, id, sub, rounds, e, k)
  }

  ghost predicate WantedAt(o: Outbox, id: Id, sub: Subscription, rounds: seq<SyncRound>, e: Event, k: nat)
    requires k < |rounds|
  {
    Wanted(rounds[k].feed, AfterRounds(o, id, sub, rounds[..k]).1, e)
  }

  lemma StaysQueued(o: Outbox, id: Id, types: seq<Text>, picked: seq<Event>, now: int, event: Id)
    requires Keyed(o) && Queued(o, id, event)
    ensures Keyed(EnqueueAll(o, id, types, picked, now)) && Queued(EnqueueAll(o, id, types, picked, now), id, event)
  {
    hide MatchesType;
    EnqueueAllExact(o, id, types, picked, now);
    var d :| d in o.rows && o.rows[d].sub == id && o.rows[d].event.id == event;
    assert d in EnqueueAll(o, id, types, picked, now).rows;
  }

  lemma QueuedByRound(o: Outbox, id: Id, types: seq<Text>, picked: seq<Event>, now: int, e: Event)
    requires Keyed(o) && e in picked && MatchesType(types, e.kind)
    ensures Keyed(EnqueueAll(o, id, types, picked, now)) && Queued(EnqueueAll(o, id, types, picked, now), id, e.id)
  {
    hide MatchesType;
    EnqueueAllExact(o, id, types, picked, now);
  }

  /**
    Delivery over any rounds on any feeds, growing or not, with page limits of at most 100: an
    event of a matching type gets a delivery if and only if some round shows it above the cursor.
  */
  lemma {:induction false} DeliveredIff(o: Outbox, id: Id, sub: Subscription, rounds: seq<SyncRound>, e: Event)
    requires Keyed(o) && !Queued(o, id, e.id) && MatchesType(sub.types, e.kind) && NamesOne(rounds, e)
    requires forall k :: 0 <= k < |rounds| ==> rounds[k].pageLimit <= 100
    ensures var (u, s) := AfterRounds(o, id, sub, rounds);
      Keyed(u) && s == sub.(cursor := s.cursor) && (Queued(u, id, e.id) <==> MetAbove(o, id, sub, rounds, e))
  {
    hide Collected, EnqueueAll, Queued, Keyed, Moved, Wanted, MatchesType;
    if rounds != [] {
      var init, r := rounds[..|rounds| - 1], rounds[|rounds| - 1];
      DeliveredIff(o, id, sub, init, e);
      var (p, s) := AfterRounds(o, id, sub, init);
      var picked := Collected(r.feed, s, r.pageLimit);
      assert OneEventPerId(r.feed);
      CollectedExact(r.feed, s, r.pageLimit);
      MetSplits(o, id, sub, rounds, e);
      if Queued(p, id, e.id) {
        StaysQueued(p, id, s.types, picked, r.now, e.id);
      } else if Wanted(r.feed, s, e) {
        QueuedByRound(p, id, s.types, picked, r.now, e);
      } else {
        forall x | x in picked ensures x.id != e.id {
          assert Wanted(r.feed, s, x);
          WantedShown(r.feed, s, x);
        }
        StaysUnqueued(p, id, s.types, picked, r.now, e);
      }
    }
  }

  lemma WantedShown(feed: seq<Event>, sub: Subscription, e: Event)
    requires Wanted(feed, sub, e)
    ensures e in feed
  {
  }

  lemma MetSplits(o: Outbox, id: Id, sub: Subscription, rounds: seq<SyncRound>, e: Event)
    requires rounds != []
    ensures var init := rounds[..|rounds| - 1];
      MetAbove(o, id, sub, rounds, e) <==> MetAbove(o, id, sub, init, e) || WantedAt(o, id, sub, rounds, e, |rounds| - 1)
  {
    hide Wanted, AfterRounds;
    var init := rounds[..|rounds| - 1];
    forall k | 0 <= k < |init| ensures WantedAt(o, id, sub, rounds, e, k) <==> WantedAt(o, id, sub, init, e, k) {
      assert init[..k] == rounds[..k] && init[k] == rounds[k];
    }
  }

  // ----- in terms of the events' own fields -----

  predicate RuntimeKind(kind: Text) {
    || kind == "agent_request.accepted" || kind == "agent_request.rejected" || kind == "checkpoint_publication.failed"
    || kind == "checkpoint_publication.prepared" || kind == "checkpoint_publication.submitted"
    || kind == "work_item.claimable" || kind == "work_item.updated"
  }

  /** No listed type means every runtime type; a listed type must be a known one. */
  predicate AsksFor(types: seq<Text>, kind: Text) {
    if |types| == 0 then RuntimeKind(kind) else kind in types && (RuntimeKind(kind) || kind == "webhook.ping")
  }

  /** Later than the cursor's time, or at it with a larger id; a missing id counts as the smallest. */
  predicate Later(e: Event, c: Cursor) {
    match c.at
    case None => true
    case Some(at) => e.at > at || (e.at == at && e.id > match c.id case None => 0 case Some(id) => id)
  }

  /** A subscription without an agent hears of everyone. */
  predicate Names(sub: Subscription, e: Event) {
    sub.agent in e.agents || sub.agent == ""
  }

  lemma WantedIs(feed: seq<Event>, sub: Subscription, e: Event)
    ensures Wanted(feed, sub, e) <==> e in feed && Names(sub, e) && Later(e, sub.cursor)
  {
  }

  lemma AsksForIs(types: seq<Text>, kind: Text)
    ensures MatchesType(types, kind) <==> AsksFor(types, kind)
  {
  }

  /** Some round's feed held the event, naming the agent, later than the cursor of that moment. */
  ghost predicate ShownLater(id: Id, sub: Subscription, rounds: seq<SyncRound>, e: Event) {
    exists k :: 0 <= k < |rounds| && ShownAt(id, sub, rounds, e, k)
  }

  ghost predicate ShownAt(id: Id, sub: Subscription, rounds: seq<SyncRound>, e: Event, k: nat)
    requires k < |rounds|
  {
    && e in rounds[k].feed && Names(sub, e)
    && Later(e, AfterRounds(Outbox(map[], 1), id, sub, rounds[..k]).1.cursor)
  }

  lemma {:induction false} SameSubscription(o: Outbox, id: Id, sub: Subscription, rounds: seq<SyncRound>)
    ensures var s := AfterRounds(o, id, sub, rounds).1; s == sub.(cursor := s.cursor)
  {
    hide Collected, EnqueueAll, Moved;
    if rounds != [] { SameSubscription(o, id, sub, rounds[..|rounds| - 1]); }
  }

  /**
    Who is told of what: over any rounds on any feeds with page limits of at most 100, a
    subscription gets a delivery for an event if and only if it asks for the event's type and some
    round showed the event, naming the subscription's agent, later than the cursor then was.
  */
  lemma ToldOf(id: Id, sub: Subscription, rounds: seq<SyncRound>, e: Event)
    requires AsksFor(sub.types, e.kind) && NamesOne(rounds, e)
    requires forall k :: 0 <= k < |rounds| ==> rounds[k].pageLimit <= 100
    ensures Queued(AfterRounds(Outbox(map[], 1), id, sub, rounds).0, id, e.id) <==> ShownLater(id, sub, rounds, e)
  {
    hide AfterRounds, Queued, Wanted, MatchesType, AsksFor;
    var o := Outbox(map[], 1);
    AsksForIs(sub.types, e.kind);
    NothingQueued(id, e.id);
    DeliveredIff(o, id, sub, rounds, e);
    forall k | 0 <= k < |rounds| ensures WantedAt(o, id, sub, rounds, e, k) <==> ShownAt(id, sub, rounds, e, k) {
      SameSubscription(o, id, sub, rounds[..k]);
      WantedIs(rounds[k].feed, AfterRounds(o, id, sub, rounds[..k]).1, e);
    }
  }

  /** A delivery that the rounds made: pending, for this subscription, of a type it asks for, about its agent. */
  predicate Addressed(d: Delivery, id: Id, sub: Subscription) {
    && d.sub == id && d.status.Pending? && d.attempts == 0
    && AsksFor(sub.types, d.event.kind) && Names(sub, d.event)
  }

  /** Nobody else is told: every delivery that the rounds of a subscription make is addressed to it. */
  lemma {:induction false} NobodyElseTold(id: Id, sub: Subscription, rounds: seq<SyncRound>)
    requires forall k :: 0 <= k < |rounds| ==> OneEventPerId(rounds[k].feed)
    ensures Keyed(AfterRounds(Outbox(map[], 1), id, sub, rounds).0)
    ensures var u := AfterRounds(Outbox(map[], 1), id, sub, rounds).0; forall d :: d in u.rows ==> Addressed(u.rows[d], id, sub)
  {
    hide Collected, EnqueueAll, Moved, Wanted, MatchesType, AsksFor, Queued, Keyed;
    if rounds == [] {
      NothingQueued(id, 0);
    } else {
      var init, r := rounds[..|rounds| - 1], rounds[|rounds| - 1];
      NobodyElseTold(id, sub, init);
      var (p, s) := AfterRounds(Outbox(map[], 1), id, sub, init);
      SameSubscription(Outbox(map[], 1), id, sub, init);
      var picked := Collected(r.feed, s, r.pageLimit);
      CollectedExact(r.feed, s, r.pageLimit);
      EnqueueAllExact(p, id, s.types, picked, r.now);
      var u := EnqueueAll(p, id, s.types, picked, r.now);
      forall d | d in u.rows ensures Addressed(u.rows[d], id, sub) {
        if d in p.rows { assert u.rows[d] == p.rows[d]; }
        else {
          var e :| e in picked && MatchesType(s.types, e.kind) && u.rows[d] == Delivery(id, e, Pending, 0, r.now);
          AsksForIs(s.types, e.kind);
          WantedIs(r.feed, s, e);
        }
      }
    }
  }

  const EARLY := Event(1, 1, "work_item.updated", {"agent"})
  const PROMPT := Event(2, 2, "work_item.updated", {"agent"})

  /**
    An event that the feed shows only after a later one has been collected: it lies below the
    cursor, and no round ever delivers it.
  */
  lemma LateEventLost(id: Id, later: seq<SyncRound>)
    requires NamesOne(later, EARLY)
    ensures var rounds := [SyncRound([PROMPT], 100, 0)] + later;
      !Queued(AfterRounds(Outbox(map[], 1), id, NEW_SUBSCRIPTION, rounds).0, id, EARLY.id)
  {
    hide Collected, EnqueueAll, AfterRounds, Queued, Keyed, Moved;
    var round, o := SyncRound([PROMPT], 100, 0), Outbox(map[], 1);
    var picked := Collected(round.feed, NEW_SUBSCRIPTION, round.pageLimit);
    CollectedExact(round.feed, NEW_SUBSCRIPTION, round.pageLimit);
    CursorRises(round.feed, NEW_SUBSCRIPTION, round.pageLimit);
    assert PROMPT in round.feed && Wanted(round.feed, NEW_SUBSCRIPTION, PROMPT);
    NothingQueued(id, EARLY.id);
    StaysUnqueued(o, id, NEW_SUBSCRIPTION.types, picked, round.now, EARLY);
    var next := NEW_SUBSCRIPTION.(cursor := Moved(NEW_SUBSCRIPTION.cursor, picked));
    NeverEnqueued(EnqueueAll(o, id, NEW_SUBSCRIPTION.types, picked, round.now), id, next, later, EARLY);
    RoundsFromFirst(o, id, NEW_SUBSCRIPTION, round, later);
  }

  lemma NothingQueued(id: Id, event: Id)
    ensures Keyed(Outbox(map[], 1)) && !Queued(Outbox(map[], 1), id, event)
  {
  }
}
