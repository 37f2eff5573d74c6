/**
  The webhook outbox, delivery side (src/agents/webhooks.ts): attempts, retries with a doubling
  delay, and the tables as the sync and dispatch functions change them.
*/
module WebhookDispatch {
  import opened Common
  import opened Queries
  import opened Webhooks

  // ----- retry delay -----

  function Pow2(n: nat): nat {
    if n == 0 then 1 else 2 * Pow2(n - 1)
  }

  const CAP := 3_600_000

  /** `computeAgentWebhookRetryDelayMs`. */
  function RetryDelay(attempts: int): int {
    Min(CAP, 15_000 * Pow2(Max(1, attempts) - 1))
  }

  /** Delays start at 15 seconds, double up to one hour, and never go down. */
  lemma DelayDoubles(attempts: int)
    ensures RetryDelay(1) == 15_000 && 15_000 <= RetryDelay(attempts) <= CAP
    ensures attempts >= 1 ==> RetryDelay(attempts + 1) == Min(CAP, 2 * RetryDelay(attempts))
    ensures RetryDelay(attempts) <= RetryDelay(attempts + 1)
  {
    Positive(Max(1, attempts) - 1);
  }

  lemma {:induction false} Positive(n: nat)
    ensures Pow2(n) >= 1
  {
    if n > 0 { Positive(n - 1); }
  }

  // ----- one attempt -----

  /**
    What dispatching a delivery meets. `AcceptedUnnoted`: the receiver accepted, but recording the
    success failed, the note on the subscription included; the catch block then goes by the attempts.
  */
  datatype Outcome = Inactive | Accepted | AcceptedUnnoted | Rejected | Unreachable

  predicate Live(d: Delivery) {
    d.status.Pending? || d.status.Retrying?
  }

  function MaxAttempts(requested: Option<int>): (r: nat)
    ensures 1 <= r <= 20
    ensures requested.None? ==> r == 5
    ensures requested.Some? && 1 <= requested.value <= 20 ==> r == requested.value
  {
    Max(1, Min(if requested.Some? then requested.value else 5, 20))
  }

  function Attempt(d: Delivery, outcome: Outcome, now: int, max: nat): Delivery {
    var attempts := d.attempts + 1;
    if outcome.Inactive? then d.(status := Failed, attempts := attempts)
    else if outcome.Accepted? then d.(status := Delivered, attempts := attempts)
    else if attempts >= max then d.(status := Failed, attempts := attempts)
    else d.(status := Retrying, attempts := attempts, nextAttemptAt := now + RetryDelay(attempts))
  }

  /** A delivery has used at most `max` attempts, and fewer while it is still live. */
  predicate Bounded(d: Delivery, max: nat) {
    d.attempts <= max && (Live(d) ==> d.attempts < max)
  }

  // ----- rounds of a single dispatcher -----

  datatype Round = Round(picked: seq<Id>, outcome: Id -> Outcome, now: int)

  function DispatchAll(o: Outbox, r: Round, n: nat, max: nat): Outbox
    requires n <= |r.picked|
  {
    if n == 0 then o
    else
      var p, d := DispatchAll(o, r, n - 1, max), r.picked[n - 1];
      if d in p.rows then p.(rows := p.rows[d := Attempt(p.rows[d], r.outcome(d), r.now, max)]) else p
  }

  function Dispatch(o: Outbox, r: Round, max: nat): Outbox {
    DispatchAll(o, r, |r.picked|, max)
  }

  /** How many of the first `n` attempts of a round end in that status. */
  function Tally(o: Outbox, r: Round, n: nat, max: nat, status: Status): nat
    requires n <= |r.picked|
  {
    if n == 0 then 0
    else
      var d := r.picked[n - 1];
      Tally(o, r, n - 1, max, status)
      + if d in o.rows && Attempt(o.rows[d], r.outcome(d), r.now, max).status == status then 1 else 0
  }

  /** A round picks different, live deliveries. */
  ghost predicate Proper(o: Outbox, r: Round) {
    && (forall i :: 0 <= i < |r.picked| ==> r.picked[i] in o.rows && Live(o.rows[r.picked[i]]))
    && (forall i, j :: 0 <= i < j < |r.picked| ==> r.picked[i] != r.picked[j])
  }

  /** A round attempts each picked delivery once and touches nothing else; final rows are final. */
  lemma {:induction false} DispatchExact(o: Outbox, r: Round, n: nat, max: nat)
    requires Proper(o, r) && n <= |r.picked|
    ensures var u := DispatchAll(o, r, n, max);
      && u.rows.Keys == o.rows.Keys && u.nextId == o.nextId
      && forall d :: d in o.rows ==>
           u.rows[d] == if d in r.picked[..n] then Attempt(o.rows[d], r.outcome(d), r.now, max) else o.rows[d]
  {
    hide Attempt;
    if n > 0 {
      DispatchExact(o, r, n - 1, max);
      var d := r.picked[n - 1];
      assert r.picked[..n] == r.picked[..n - 1] + [d];
      assert d !in r.picked[..n - 1];
    }
  }

  ghost function Rounds(o: Outbox, rs: seq<Round>, max: nat): Outbox {
    if |rs| == 0 then o else Dispatch(Rounds(o, rs[..|rs| - 1], max), rs[|rs| - 1], max)
  }

  ghost predicate AllProper(o: Outbox, rs: seq<Round>, max: nat) {
    |rs| == 0 || (AllProper(o, rs[..|rs| - 1], max) && Proper(Rounds(o, rs[..|rs| - 1], max), rs[|rs| - 1]))
  }

  /** How often a delivery was dispatched. */
  ghost function Dispatches(rs: seq<Round>, d: Id): nat {
    if |rs| == 0 then 0 else Dispatches(rs[..|rs| - 1], d) + if d in rs[|rs| - 1].picked then 1 else 0
  }

  /**
    Retries terminate: over any rounds with a fixed maximum, a delivery's attempts are exactly its
    dispatches, they never pass the maximum, and after that many dispatches it is final; what was
    final stays as it was.
  */
  lemma {:induction false} RetriesTerminate(o: Outbox, rs: seq<Round>, max: nat, d: Id)
    requires max > 0 && d in o.rows && Bounded(o.rows[d], max) && AllProper(o, rs, max)
    ensures var u := Rounds(o, rs, max);
      && d in u.rows && Bounded(u.rows[d], max)
      && u.rows[d].attempts == o.rows[d].attempts + Dispatches(rs, d)
      && (!Live(o.rows[d]) ==> u.rows[d] == o.rows[d] && Dispatches(rs, d) == 0)
      && (o.rows[d].attempts + Dispatches(rs, d) >= max ==> !Live(u.rows[d]))
  {
    hide DispatchAll, RetryDelay;
    if |rs| > 0 {
      var init, r := rs[..|rs| - 1], rs[|rs| - 1];
      RetriesTerminate(o, init, max, d);
      var p := Rounds(o, init, max);
      DispatchExact(p, r, |r.picked|, max);
      assert r.picked[..|r.picked|] == r.picked;
      if d in r.picked {
        var i :| 0 <= i < |r.picked| && r.picked[i] == d;
        assert Live(p.rows[d]);
      }
    }
  }

  lemma AllProperPrefix(o: Outbox, rs: seq<Round>, max: nat, n: nat)
    requires AllProper(o, rs, max) && n <= |rs|
    ensures AllProper(o, rs[..n], max)
    ensures n < |rs| ==> Proper(Rounds(o, rs[..n], max), rs[n])
  {
    if n < |rs| {
      var init := rs[..|rs| - 1];
      assert init[..n] == rs[..n];
      if n < |init| { assert init[n] == rs[n]; }
      AllProperPrefix(o, init, max, n);
    } else {
      assert rs[..n] == rs;
    }
  }

  /** A final delivery stays as it is and is never picked again. */
  lemma {:induction false} StaysFinal(o: Outbox, rs: seq<Round>, max: nat, d: Id, i: nat, j: nat)
    requires AllProper(o, rs, max) && i <= j < |rs|
    requires d in Rounds(o, rs[..i], max).rows && !Live(Rounds(o, rs[..i], max).rows[d])
    ensures Lookup(Rounds(o, rs[..j], max).rows, d) == Lookup(Rounds(o, rs[..i], max).rows, d) && d !in rs[j].picked
  {
    hide AllProper, Dispatch;
    AllProperPrefix(o, rs, max, j);
    if i < j {
      StaysFinal(o, rs, max, d, i, j - 1);
      var p, r := Rounds(o, rs[..j - 1], max), rs[j - 1];
      AllProperPrefix(o, rs, max, j - 1);
      assert rs[..j][..j - 1] == rs[..j - 1];
      DispatchWhole(p, r, max);
    }
  }

  lemma DispatchWhole(p: Outbox, r: Round, max: nat)
    requires Proper(p, r)
    ensures var u := Dispatch(p, r, max);
      u.rows.Keys == p.rows.Keys
      && forall d :: d in p.rows ==> u.rows[d] == if d in r.picked then Attempt(p.rows[d], r.outcome(d), r.now, max) else p.rows[d]
  {
    hide Attempt;
    DispatchExact(p, r, |r.picked|, max);
    assert r.picked[..|r.picked|] == r.picked;
  }

  /** Once the receiver's acceptance is recorded, no later round posts the delivery again. */
  lemma NeverPostedAgain(o: Outbox, rs: seq<Round>, max: nat, d: Id, i: nat, j: nat)
    requires AllProper(o, rs, max) && i < j < |rs| && d in rs[i].picked && rs[i].outcome(d).Accepted?
    ensures d in Rounds(o, rs[..j], max).rows && Rounds(o, rs[..j], max).rows[d].status.Delivered? && d !in rs[j].picked
  {
    hide AllProper, Dispatch, RetryDelay;
    AllProperPrefix(o, rs, max, i);
    AllProperPrefix(o, rs, max, j);
    DispatchWhole(Rounds(o, rs[..i], max), rs[i], max);
    assert rs[..i + 1][..i] == rs[..i];
    StaysFinal(o, rs, max, d, i + 1, j);
  }

  // ----- what a delivery becomes -----

  /** Some round met that outcome when it dispatched the delivery. */
  ghost predicate Met(rs: seq<Round>, d: Id, outcome: Outcome) {
    exists i :: 0 <= i < |rs| && d in rs[i].picked && rs[i].outcome(d) == outcome
  }

  lemma MetMore(rs: seq<Round>, d: Id, outcome: Outcome)
    requires |rs| > 0
    ensures Met(rs, d, outcome) <==>
      Met(rs[..|rs| - 1], d, outcome) || (d in rs[|rs| - 1].picked && rs[|rs| - 1].outcome(d) == outcome)
  {
    var init := rs[..|rs| - 1];
    if i :| 0 <= i < |rs| && d in rs[i].picked && rs[i].outcome(d) == outcome { assert i < |init| ==> init[i] == rs[i]; }
    if i :| 0 <= i < |init| && d in init[i].picked && init[i].outcome(d) == outcome { assert rs[i] == init[i]; }
  }

  /**
    Exactly what a pending delivery becomes over any rounds: delivered when its acceptance was
    recorded; failed when its subscription was found inactive or when it was dispatched the maximum
    number of times without that; retrying while it has been dispatched fewer times than that.
  */
  lemma {:induction false} DeliveryFate(o: Outbox, rs: seq<Round>, max: nat, d: Id)
    requires max > 0 && d in o.rows && o.rows[d].status.Pending? && o.rows[d].attempts == 0 && AllProper(o, rs, max)
    ensures var u, n := Rounds(o, rs, max), Dispatches(rs, d);
      && d in u.rows && u.rows[d].attempts == n <= max
      && (u.rows[d].status.Delivered? <==> Met(rs, d, Accepted))
      && (u.rows[d].status.Failed? <==> Met(rs, d, Inactive) || (n == max && !Met(rs, d, Accepted)))
      && (u.rows[d].status.Retrying? <==> 0 < n < max && !Met(rs, d, Accepted) && !Met(rs, d, Inactive))
      && (u.rows[d].status.Pending? <==> n == 0)
  {
    hide DispatchAll, Dispatch, RetryDelay, Met;
    if |rs| == 0 {
      NeverMet(rs, d);
    } else {
      var init, r := rs[..|rs| - 1], rs[|rs| - 1];
      DeliveryFate(o, init, max, d);
      var p := Rounds(o, init, max);
      DispatchWhole(p, r, max);
      MetMore(rs, d, Accepted);
      MetMore(rs, d, Inactive);
      if d in r.picked {
        var i :| 0 <= i < |r.picked| && r.picked[i] == d;
        assert Live(p.rows[d]);
      }
    }
  }

  lemma NeverMet(rs: seq<Round>, d: Id)
    requires |rs| == 0
    ensures forall x :: !Met(rs, d, x)
  {
  }

  /** A round of the dispatcher picks only deliveries whose next attempt is due. */
  ghost predicate Punctual(o: Outbox, r: Round) {
    forall i :: 0 <= i < |r.picked| ==> r.picked[i] in o.rows && o.rows[r.picked[i]].nextAttemptAt <= r.now
  }

  /** Fifteen seconds times two to the number of earlier attempts, one hour at most. */
  function Wait(attempts: nat): int
    requires attempts > 0
  {
    var w := 15_000 * Pow2(attempts - 1);
    if w < 3_600_000 then w else 3_600_000
  }

  /** The row of a delivery that no round in between picks stays the same. */
  lemma {:induction false} UntouchedBetween(o: Outbox, rs: seq<Round>, max: nat, d: Id, i: nat, j: nat)
    requires AllProper(o, rs, max) && i <= j <= |rs| && forall k :: i <= k < j ==> d !in rs[k].picked
    ensures Lookup(Rounds(o, rs[..j], max).rows, d) == Lookup(Rounds(o, rs[..i], max).rows, d)
  {
    hide AllProper, Dispatch;
    if i < j {
      UntouchedBetween(o, rs, max, d, i, j - 1);
      AllProperPrefix(o, rs, max, j - 1);
      assert rs[..j][..j - 1] == rs[..j - 1];
      DispatchWhole(Rounds(o, rs[..j - 1], max), rs[j - 1], max);
    }
  }

  /**
    The wait before a retry: when round `j` is the next to dispatch a delivery after round `i`, at
    least the doubling delay for the attempts made so far has passed between them.
  */
  lemma RetriesWait(o: Outbox, rs: seq<Round>, max: nat, d: Id, i: nat, j: nat)
    requires max > 0 && AllProper(o, rs, max) && i < j < |rs| && d in rs[i].picked && d in rs[j].picked
    requires forall k :: i < k < j ==> d !in rs[k].picked
    requires Punctual(Rounds(o, rs[..j], max), rs[j])
    ensures d in Rounds(o, rs[..i + 1], max).rows
    ensures var row := Rounds(o, rs[..i + 1], max).rows[d];
      && row.attempts > 0 && row.nextAttemptAt == rs[i].now + Wait(row.attempts) && rs[j].now >= rs[i].now + Wait(row.attempts)
  {
    hide AllProper, Dispatch;
    AllProperPrefix(o, rs, max, i);
    AllProperPrefix(o, rs, max, j);
    assert rs[..i + 1][..i] == rs[..i];
    DispatchWhole(Rounds(o, rs[..i], max), rs[i], max);
    UntouchedBetween(o, rs, max, d, i + 1, j);
    var k :| 0 <= k < |rs[j].picked| && rs[j].picked[k] == d;
    assert Live(Rounds(o, rs[..j], max).rows[d]);
  }

  // ----- the tables -----

  function CountMatching(types: seq<Text>, es: seq<Event>): nat {
    if es == [] then 0 else CountMatching(types, es[..|es| - 1]) + if MatchesType(types, es[|es| - 1].kind) then 1 else 0
  }

  datatype Feeds = Feeds(subs: map<Id, Subscription>, box: Outbox)

  /** A sync round for one subscription, and for several in order. */
  function SyncOne(f: Feeds, id: Id, feed: seq<Event>, pageLimit: int, now: int): Feeds {
    if id !in f.subs then f
    else
      var s := f.subs[id];
      var collected := Collected(feed, s, pageLimit);
      Feeds(f.subs[id := s.(cursor := Moved(s.cursor, collected))], EnqueueAll(f.box, id, s.types, collected, now))
  }

  function SyncMany(f: Feeds, ids: seq<Id>, feed: seq<Event>, pageLimit: int, now: int): Feeds {
    if ids == [] then f else SyncOne(SyncMany(f, ids[..|ids| - 1], feed, pageLimit, now), ids[|ids| - 1], feed, pageLimit, now)
  }

  /** Another subscription's row is left alone by the round. */
  lemma {:induction false} OtherSubscription(f: Feeds, ids: seq<Id>, feed: seq<Event>, pageLimit: int, now: int, id: Id)
    requires id !in ids
    ensures Lookup(SyncMany(f, ids, feed, pageLimit, now).subs, id) == Lookup(f.subs, id)
  {
    hide Collected, EnqueueAll, Moved;
    if ids != [] { OtherSubscription(f, ids[..|ids| - 1], feed, pageLimit, now, id); }
  }

  /** The active subscriptions, each of them once. */
  ghost predicate Lists(subs: map<Id, Subscription>, ids: seq<Id>) {
    && (forall id :: id in ids <==> id in subs && subs[id].active)
    && (forall i, j :: 0 <= i < j < |ids| ==> ids[i] != ids[j])
  }

  /** The matching events that a round finds for the subscriptions. */
  function EnqueuedIn(subs: map<Id, Subscription>, ids: seq<Id>, feed: seq<Event>, pageLimit: int): nat {
    if ids == [] then 0
    else
      var id := ids[|ids| - 1];
      EnqueuedIn(subs, ids[..|ids| - 1], feed, pageLimit)
      + if id in subs then CountMatching(subs[id].types, Collected(feed, subs[id], pageLimit)) else 0
  }

  /** The subscriptions for which it finds any event. */
  function UpdatedIn(subs: map<Id, Subscription>, ids: seq<Id>, feed: seq<Event>, pageLimit: int): nat {
    if ids == [] then 0
    else
      var id := ids[|ids| - 1];
      UpdatedIn(subs, ids[..|ids| - 1], feed, pageLimit)
      + if id in subs && Collected(feed, subs[id], pageLimit) != [] then 1 else 0
  }

  // ----- what a round over several subscriptions does -----

  /** What is queued after enqueueing for `sub`: what was, and for `sub` the events it asks for. */
  lemma QueuedAfter(o: Outbox, sub: Id, types: seq<Text>, es: seq<Event>, now: int, k: Id, x: Id)
    requires Keyed(o)
    ensures Queued(EnqueueAll(o, sub, types, es, now), k, x) <==>
      Queued(o, k, x) || (k == sub && exists e :: e in es && MatchesType(types, e.kind) && e.id == x)
  {
    hide MatchesType, Keyed;
    EnqueueAllExact(o, sub, types, es, now);
    var u := EnqueueAll(o, sub, types, es, now);
    if d :| d in u.rows && u.rows[d].sub == k && u.rows[d].event.id == x {
      if d in o.rows {
        assert u.rows[d] == o.rows[d];
      } else {
        var e :| e in es && MatchesType(types, e.kind) && u.rows[d] == Delivery(sub, e, Pending, 0, now);
        assert e.id == x;
      }
    }
    if d :| d in o.rows && o.rows[d].sub == k && o.rows[d].event.id == x { assert u.rows[d] == o.rows[d]; }
  }

  ghost predicate Different(ids: seq<Id>) {
    forall i, j :: 0 <= i < j < |ids| ==> ids[i] != ids[j]
  }

  /** Some event on the feed is new to the subscription, of a type it asks for, and has that id. */
  ghost predicate Finds(feed: seq<Event>, sub: Subscription, pageLimit: int, x: Id) {
    exists e :: e in Collected(feed, sub, pageLimit) && MatchesType(sub.types, e.kind) && e.id == x
  }

  /**
    Subscriptions do not disturb each other: in a round over several of them each ends with the
    cursor and the deliveries of a round of its own, and one that is not listed keeps what it had.
  */
  lemma {:induction false} EachOnItsOwn(f: Feeds, ids: seq<Id>, feed: seq<Event>, pageLimit: int, now: int, k: Id, x: Id)
    requires Keyed(f.box) && Different(ids) && forall i :: i in ids ==> i in f.subs
    ensures var g := SyncMany(f, ids, feed, pageLimit, now);
      && Keyed(g.box) && g.subs.Keys == f.subs.Keys
      && (k in f.subs ==> g.subs[k] == if k in ids
            then f.subs[k].(cursor := Moved(f.subs[k].cursor, Collected(feed, f.subs[k], pageLimit))) else f.subs[k])
      && (Queued(g.box, k, x) <==> Queued(f.box, k, x) || (k in ids && Finds(feed, f.subs[k], pageLimit, x)))
  {
    hide Collected, EnqueueAll, Moved, Queued, Keyed, MatchesType;
    if ids != [] {
      var init, id := ids[..|ids| - 1], ids[|ids| - 1];
      EachOnItsOwn(f, init, feed, pageLimit, now, k, x);
      EachOnItsOwn(f, init, feed, pageLimit, now, id, x);
      assert id !in init && ids == init + [id];
      var g := SyncMany(f, init, feed, pageLimit, now);
      var s := f.subs[id];
      assert g.subs[id] == s;
      EnqueueAllExact(g.box, id, s.types, Collected(feed, s, pageLimit), now);
      QueuedAfter(g.box, id, s.types, Collected(feed, s, pageLimit), now, k, x);
    }
  }

  lemma {:induction false} RowsGrow(o: Outbox, sub: Id, types: seq<Text>, es: seq<Event>, now: int)
    requires Keyed(o) && DistinctIds(es) && forall e :: e in es && MatchesType(types, e.kind) ==> !Queued(o, sub, e.id)
    ensures |EnqueueAll(o, sub, types, es, now).rows| == |o.rows| + CountMatching(types, es)
  {
    hide MatchesType, Queued;
    if es != [] {
      var init, e := es[..|es| - 1], es[|es| - 1];
      RowsGrow(o, sub, types, init, now);
      EnqueueAllExact(o, sub, types, init, now);
      QueuedAfter(o, sub, types, init, now, sub, e.id);
      var p := EnqueueAll(o, sub, types, init, now);
      assert forall x :: x in init ==> x.id != e.id;
      if MatchesType(types, e.kind) { AddedRow(p, Delivery(sub, e, Pending, 0, now)); }
    }
  }

  lemma AddedRow(o: Outbox, d: Delivery)
    requires Keyed(o)
    ensures |o.rows[o.nextId := d]| == |o.rows| + 1
  {
    assert o.nextId !in o.rows;
    assert o.rows[o.nextId := d].Keys == o.rows.Keys + {o.nextId};
  }

  /**
    The count of enqueued events is what the outbox grows by, when no delivery of an event that
    the round finds is there yet.
  */
  lemma {:induction false} EnqueuedIsGrowth(f: Feeds, ids: seq<Id>, feed: seq<Event>, pageLimit: int, now: int)
    requires Keyed(f.box) && Different(ids) && OneEventPerId(feed) && forall i :: i in ids ==> i in f.subs
    requires forall i, x :: i in ids && Finds(feed, f.subs[i], pageLimit, x) ==> !Queued(f.box, i, x)
    ensures |SyncMany(f, ids, feed, pageLimit, now).box.rows| == |f.box.rows| + EnqueuedIn(f.subs, ids, feed, pageLimit)
  {
    hide Collected, EnqueueAll, Moved, Queued, Keyed, MatchesType, CountMatching, DistinctIds;
    if ids != [] {
      var init, id := ids[..|ids| - 1], ids[|ids| - 1];
      EnqueuedIsGrowth(f, init, feed, pageLimit, now);
      var g, s := SyncMany(f, init, feed, pageLimit, now), f.subs[id];
      var collected := Collected(feed, s, pageLimit);
      assert id !in init && ids == init + [id];
      EachOnItsOwn(f, init, feed, pageLimit, now, id, 0);
      CollectedExact(feed, s, pageLimit);
      forall e | e in collected && MatchesType(s.types, e.kind) ensures !Queued(g.box, id, e.id) {
        assert Finds(feed, s, pageLimit, e.id);
        EachOnItsOwn(f, init, feed, pageLimit, now, id, e.id);
      }
      RowsGrow(g.box, id, s.types, collected, now);
    }
  }

  /** The subscriptions whose cursor differs. */
  function MovedIn(f: map<Id, Subscription>, g: map<Id, Subscription>): set<Id> {
    set i | i in f && i in g && g[i].cursor != f[i].cursor
  }

  lemma OneMoreMoved(f: map<Id, Subscription>, p: map<Id, Subscription>, id: Id, s: Subscription)
    requires p.Keys == f.Keys && id in f && p[id] == f[id]
    ensures |MovedIn(f, p[id := s])| == |MovedIn(f, p)| + if s.cursor != f[id].cursor then 1 else 0
  {
    assert id !in MovedIn(f, p);
    assert MovedIn(f, p[id := s]) == if s.cursor != f[id].cursor then MovedIn(f, p) + {id} else MovedIn(f, p);
  }

  /** The count of updated subscriptions is the number of those whose cursor moved. */
  lemma {:induction false} UpdatedIsMoved(f: Feeds, ids: seq<Id>, feed: seq<Event>, pageLimit: int, now: int)
    requires Different(ids) && OneEventPerId(feed) && pageLimit > 0 && forall i :: i in ids ==> i in f.subs
    ensures SyncMany(f, ids, feed, pageLimit, now).subs.Keys == f.subs.Keys
    ensures UpdatedIn(f.subs, ids, feed, pageLimit) == |MovedIn(f.subs, SyncMany(f, ids, feed, pageLimit, now).subs)|
  {
    hide Collected, EnqueueAll, Moved, MovedIn;
    if ids == [] {
      assert MovedIn(f.subs, f.subs) == {} by { NoneMoved(f.subs); }
    } else {
      var init, id := ids[..|ids| - 1], ids[|ids| - 1];
      UpdatedIsMoved(f, init, feed, pageLimit, now);
      var p, s := SyncMany(f, init, feed, pageLimit, now), f.subs[id];
      assert id !in init && ids == init + [id];
      OtherSubscription(f, init, feed, pageLimit, now, id);
      MovesIff(feed, s, pageLimit);
      OneMoreMoved(f.subs, p.subs, id, s.(cursor := Moved(s.cursor, Collected(feed, s, pageLimit))));
    }
  }

  lemma NoneMoved(f: map<Id, Subscription>)
    ensures MovedIn(f, f) == {}
  {
  }

  lemma MovesIff(feed: seq<Event>, s: Subscription, pageLimit: int)
    requires OneEventPerId(feed) && pageLimit > 0
    ensures Moved(s.cursor, Collected(feed, s, pageLimit)) != s.cursor <==> Collected(feed, s, pageLimit) != []
  {
    hide Collected;
    var es := Collected(feed, s, pageLimit);
    CollectedExact(feed, s, pageLimit);
    if es != [] { assert Wanted(feed, s, es[|es| - 1]); }
  }

  /** Those of the deliveries that are in that status. */
  function InStatus(rows: map<Id, Delivery>, ds: seq<Id>, status: Status): set<Id> {
    set d | d in ds && d in rows && rows[d].status == status
  }

  lemma InOneMore(ds: seq<Id>, d: Id, x: Id)
    ensures x in ds + [d] <==> x in ds || x == d
  {
  }

  lemma OneMoreIn(p: map<Id, Delivery>, u: map<Id, Delivery>, ds: seq<Id>, d: Id, status: Status)
    requires d !in ds && d in u && p.Keys == u.Keys && forall x :: x in ds && x in p ==> u[x] == p[x]
    ensures |InStatus(u, ds + [d], status)| == |InStatus(p, ds, status)| + if u[d].status == status then 1 else 0
  {
    var before, after := InStatus(p, ds, status), InStatus(u, ds + [d], status);
    var added := if u[d].status == status then {d} else {};
    forall x ensures x in after <==> x in before || x in added {
      InOneMore(ds, d, x);
      if x in ds { assert x != d; }
    }
    assert after == before + added && before !! added;
  }

  lemma PickedOnce(o: Outbox, r: Round, n: nat)
    requires Proper(o, r) && 0 < n <= |r.picked|
    ensures var d, init := r.picked[n - 1], r.picked[..n - 1]; r.picked[..n] == init + [d] && d !in init && d in o.rows
  {
  }

  /** The tally of a status is the number of picked deliveries that the round leaves in it. */
  lemma {:induction false} TallyCounts(o: Outbox, r: Round, n: nat, max: nat, status: Status)
    requires Proper(o, r) && n <= |r.picked|
    ensures Tally(o, r, n, max, status) == |InStatus(DispatchAll(o, r, n, max).rows, r.picked[..n], status)|
  {
    hide Attempt, DispatchAll, InStatus, Proper;
    if n == 0 {
      assert InStatus(DispatchAll(o, r, 0, max).rows, [], status) == {} by { NoneIn(DispatchAll(o, r, 0, max).rows, status); }
    } else {
      var d, init := r.picked[n - 1], r.picked[..n - 1];
      TallyCounts(o, r, n - 1, max, status);
      var p, u := DispatchAll(o, r, n - 1, max), DispatchAll(o, r, n, max);
      DispatchExact(o, r, n - 1, max);
      DispatchExact(o, r, n, max);
      PickedOnce(o, r, n);
      forall x | x in init && x in p.rows ensures u.rows[x] == p.rows[x] { InOneMore(init, d, x); }
      InOneMore(init, d, d);
      OneMoreIn(p.rows, u.rows, init, d, status);
    }
  }

  lemma NoneIn(rows: map<Id, Delivery>, status: Status)
    ensures InStatus(rows, [], status) == {}
  {
  }

  class WebhookTables {
    var subs: map<Id, Subscription>
    var rows: map<Id, Delivery>
    var nextId: Id

    function Box(): Outbox
      reads this
    {
      Outbox(rows, nextId)
    }

    constructor (subscriptions: map<Id, Subscription>)
      ensures subs == subscriptions && Box() == Outbox(map[], 1)
    {
      subs, rows, nextId := subscriptions, map[], 1;
    }

    method EnqueueDelivery(sub: Id, e: Event, now: int)
      modifies `rows, `nextId
      ensures Box() == Enqueue(old(Box()), sub, e, now)
    {
      if !exists d :: d in rows && rows[d].sub == sub && rows[d].event.id == e.id {
        rows, nextId := rows[nextId := Delivery(sub, e, Pending, 0, now)], nextId + 1;
      }
    }

    method EnqueueMatching(id: Id, types: seq<Text>, events: seq<Event>, now: int) returns (enqueued: nat)
      modifies `rows, `nextId
      ensures Box() == EnqueueAll(old(Box()), id, types, events, now)
      ensures enqueued == CountMatching(types, events)
    {
      hide Enqueue, MatchesType;
      enqueued := 0;
      for i := 0 to |events|
        invariant Box() == EnqueueAll(old(Box()), id, types, events[..i], now)
        invariant enqueued == CountMatching(types, events[..i])
      {
        assert events[..i + 1][..i] == events[..i];
        if MatchesType(types, events[i].kind) {
          EnqueueDelivery(id, events[i], now);
          enqueued := enqueued + 1;
        }
      }
      assert events[..|events|] == events;
    }

    /** One subscription of a sync round: page, filter, enqueue, and only then move the cursor. */
    method SyncSubscription(id: Id, feed: seq<Event>, pageLimit: int, now: int) returns (enqueued: nat, moved: bool)
      requires id in subs && pageLimit >= 1
      modifies this
      ensures var s, collected := old(subs[id]), Collected(feed, old(subs[id]), pageLimit);
        && Box() == EnqueueAll(old(Box()), id, s.types, collected, now)
        && subs == old(subs)[id := s.(cursor := Moved(s.cursor, collected))]
        && enqueued == CountMatching(s.types, collected) && (moved <==> collected != [])
    {
      hide Candidates, Gathered, Fresh;
      var s := subs[id];
      var items := CollectPages(feed, s.agent, s.cursor.at, pageLimit);
      var collected := FilterFresh(items, s.cursor);
      if collected == [] {
        assert subs == subs[id := s];
        return 0, false;
      }
      enqueued := EnqueueMatching(id, s.types, collected, now);
      var latest := collected[|collected| - 1];
      subs := subs[id := s.(cursor := Cursor(Some(latest.at), Some(latest.id)))];
      moved := true;
    }

    function Tables(): Feeds
      reads this
    {
      Feeds(subs, Box())
    }

    /** The query lists newest subscriptions first; the contract leaves the order open. */
    method ListActive() returns (active: seq<Id>)
      ensures Lists(subs, active)
    {
      active := [];
      var rest := set id | id in subs && subs[id].active;
      while rest != {}
        invariant forall id :: id in subs && subs[id].active <==> id in rest || id in active
        invariant forall i :: 0 <= i < |active| ==> active[i] !in rest
        invariant forall i, j :: 0 <= i < j < |active| ==> active[i] != active[j]
        decreases rest
      {
        var id :| id in rest;
        active, rest := active + [id], rest - {id};
      }
    }

    /**
      `syncAgentWebhookSubscriptionsFromRuntimeFeed`: every active subscription once, one after the
      other, with the three counts that the function returns.
    */
    method SyncAll(feed: seq<Event>, requested: Option<int>, now: int)
        returns (listed: seq<Id>, enqueued: nat, scanned: nat, updated: nat)
      modifies this
      ensures Lists(old(subs), listed)
      ensures Tables() == SyncMany(old(Tables()), listed, feed, PageLimit(requested), now)
      ensures scanned == |listed|
      ensures enqueued == EnqueuedIn(old(subs), listed, feed, PageLimit(requested))
      ensures updated == UpdatedIn(old(subs), listed, feed, PageLimit(requested))
    {
      hide Collected, EnqueueAll, Moved, CountMatching;
      listed := ListActive();
      enqueued, scanned, updated := 0, |listed|, 0;
      for i := 0 to |listed|
        invariant Tables() == SyncMany(old(Tables()), listed[..i], feed, PageLimit(requested), now)
        invariant subs.Keys == old(subs.Keys)
        invariant enqueued == EnqueuedIn(old(subs), listed[..i], feed, PageLimit(requested))
        invariant updated == UpdatedIn(old(subs), listed[..i], feed, PageLimit(requested))
      {
        assert listed[..i + 1][..i] == listed[..i];
        OtherSubscription(old(Tables()), listed[..i], feed, PageLimit(requested), now, listed[i]);
        assert listed[i] in listed && listed[i] !in listed[..i];
        var more, moved := SyncSubscription(listed[i], feed, PageLimit(requested), now);
        enqueued := enqueued + more;
        if moved { updated := updated + 1; }
      }
      assert listed[..|listed|] == listed;
    }

    function DueRows(now: int): set<Id>
      reads this
    {
      set d | d in rows && Live(rows[d]) && rows[d].nextAttemptAt <= now && rows[d].sub in subs && subs[rows[d].sub].active
    }

    /** A delivery that a dispatch at `now` is there for. */
    predicate Awaits(d: Id, now: int)
      reads this
    {
      && d in rows && (rows[d].status == Pending || rows[d].status == Retrying) && rows[d].nextAttemptAt <= now
      && rows[d].sub in subs && subs[rows[d].sub].active
    }

    function DueTimes(): map<Id, int>
      reads this
    {
      map d | d in rows :: rows[d].nextAttemptAt
    }

    /** One attempt: delivered, failed for good, or put back with a later time. */
    method AttemptDelivery(d: Id, outcome: Outcome, now: int, max: nat) returns (status: Status)
      requires d in rows
      modifies `rows
      ensures rows == old(rows)[d := Attempt(old(rows[d]), outcome, now, max)]
      ensures status == rows[d].status && !status.Pending?
    {
      var attempts := rows[d].attempts + 1;
      if outcome.Inactive? {
        status := Failed;
      } else {
        if outcome.Accepted? || outcome.AcceptedUnnoted? {
          rows := rows[d := rows[d].(status := Delivered, attempts := attempts)];
        }
        if outcome.Accepted? {
          status := Delivered;
        } else if attempts >= max {
          status := Failed;
        } else {
          status := Retrying;
          rows := rows[d := rows[d].(nextAttemptAt := now + RetryDelay(attempts))];
        }
      }
      rows := rows[d := rows[d].(status := status, attempts := attempts)];
    }

    /** The due deliveries, earliest first. */
    method SelectDue(limit: nat, now: int) returns (picked: seq<Id>)
      ensures OldestFirst(DueTimes(), DueRows(now), picked, limit)
      ensures forall i :: 0 <= i < |picked| ==> picked[i] in rows && Live(rows[picked[i]]) && Awaits(picked[i], now)
      ensures forall i, j :: 0 <= i < j < |picked| ==> picked[i] != picked[j]
      ensures forall d :: Awaits(d, now) && d !in picked ==> |picked| == limit
    {
      picked := SelectOldest(DueTimes(), DueRows(now), limit);
      forall i, j | 0 <= i < j < |picked| ensures picked[i] != picked[j] { assert Earlier(DueTimes(), picked[i], picked[j]); }
    }

    method DispatchPicked(r: Round, max: nat) returns (delivered: nat, failed: nat, retrying: nat)
      requires Proper(Box(), r)
      modifies `rows
      ensures Box() == Dispatch(old(Box()), r, max)
      ensures delivered == Tally(old(Box()), r, |r.picked|, max, Delivered)
      ensures failed == Tally(old(Box()), r, |r.picked|, max, Failed)
      ensures retrying == Tally(old(Box()), r, |r.picked|, max, Retrying)
      ensures |r.picked| == delivered + failed + retrying
    {
      hide Attempt;
      delivered, failed, retrying := 0, 0, 0;
      for i := 0 to |r.picked|
        invariant Box() == DispatchAll(old(Box()), r, i, max)
        invariant i == delivered + failed + retrying
        invariant delivered == Tally(old(Box()), r, i, max, Delivered)
        invariant failed == Tally(old(Box()), r, i, max, Failed)
        invariant retrying == Tally(old(Box()), r, i, max, Retrying)
      {
        DispatchExact(old(Box()), r, i, max);
        assert r.picked[i] !in r.picked[..i];
        var status := AttemptDelivery(r.picked[i], r.outcome(r.picked[i]), r.now, max);
        if status.Delivered? { delivered := delivered + 1; }
        else if status.Failed? { failed := failed + 1; }
        else { retrying := retrying + 1; }
      }
    }

    /**
      `dispatchDueAgentWebhookDeliveries`: one attempt for each due delivery. `outcome` says what
      each attempt meets.
    */
    method DispatchDue(requested: Option<int>, maxRequested: Option<int>, outcome: Id -> Outcome, now: int)
        returns (picked: seq<Id>, attempted: nat, delivered: nat, failed: nat, retrying: nat)
      modifies `rows
      ensures OldestFirst(old(DueTimes()), old(DueRows(now)), picked, Max(1, Min(if requested.Some? then requested.value else 20, 100)))
      ensures forall d :: old(Awaits(d, now)) && d !in picked ==> |picked| == Max(1, Min(if requested.Some? then requested.value else 20, 100))
      ensures forall i :: 0 <= i < |picked| ==> old(Awaits(picked[i], now))
      ensures Proper(old(Box()), Round(picked, outcome, now)) && Punctual(old(Box()), Round(picked, outcome, now))
      ensures Box() == Dispatch(old(Box()), Round(picked, outcome, now), MaxAttempts(maxRequested))
      ensures attempted == |picked| == delivered + failed + retrying
      ensures delivered == Tally(old(Box()), Round(picked, outcome, now), |picked|, MaxAttempts(maxRequested), Delivered)
      ensures failed == Tally(old(Box()), Round(picked, outcome, now), |picked|, MaxAttempts(maxRequested), Failed)
      ensures retrying == Tally(old(Box()), Round(picked, outcome, now), |picked|, MaxAttempts(maxRequested), Retrying)
    {
      hide Dispatch, Tally, DueRows, DueTimes, OldestFirst;
      picked := SelectDue(Max(1, Min(if requested.Some? then requested.value else 20, 100)), now);
      attempted := |picked|;
      delivered, failed, retrying := DispatchPicked(Round(picked, outcome, now), MaxAttempts(maxRequested));
    }
  }
}
