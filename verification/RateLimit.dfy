/**
  The fixed-window rate limiter (src/api/rate-limit.ts). The reference limiter keeps every bucket
  for ever; the in-memory limiter sweeps expired buckets when it holds 256, and the Postgres one
  deletes up to a hundred expired rows before each upsert.
*/
module RateLimit {
  import opened Common
  import opened Queries

  type Key = nat

  datatype Rule = Rule(maxRequests: int, windowMs: int)
  datatype Bucket = Bucket(count: nat, resetAt: int)
  datatype Request = Request(key: Key, now: int, rule: Rule)
  datatype Decision = Decision(allowed: bool, retryAfterSeconds: int)

  type Buckets = map<Key, Bucket>

  predicate Positive(r: Rule) {
    r.maxRequests > 0 && r.windowMs > 0
  }

  function CeilDiv(n: int, d: int): int
    requires d > 0
  {
    -(-n / d)
  }

  function Verdict(b: Bucket, q: Request): Decision {
    Decision(b.count <= q.rule.maxRequests, Max(1, CeilDiv(b.resetAt - q.now, 1000)))
  }

  /** The bucket after the request: a new window when there is none or it is over. */
  function Counted(m: Buckets, q: Request): Bucket {
    if q.key !in m || m[q.key].resetAt <= q.now then Bucket(1, q.now + q.rule.windowMs)
    else m[q.key].(count := m[q.key].count + 1)
  }

  /** The reference limiter. */
  function Consume(m: Buckets, q: Request): (Buckets, Decision) {
    if !Positive(q.rule) then (m, Decision(true, 0))
    else (m[q.key := Counted(m, q)], Verdict(Counted(m, q), q))
  }

  function Expired(m: Buckets, now: int): set<Key> {
    set k | k in m && m[k].resetAt <= now
  }

  function Without(m: Buckets, gone: set<Key>): Buckets {
    map k | k in m && k !in gone :: m[k]
  }

  // ----- the two backends -----

  class MemoryLimiter {
    var buckets: Buckets

    constructor ()
      ensures buckets == map[]
    {
      buckets := map[];
    }

    /** `consumeRateLimit`: sweeps when the map has grown to 256 entries. */
    method ConsumeRateLimit(q: Request) returns (d: Decision)
      modifies this
      ensures var gone := if Positive(q.rule) && |old(buckets)| >= 256 then Expired(old(buckets), q.now) else {};
        (buckets, d) == Consume(Without(old(buckets), gone), q)
    {
      if q.rule.maxRequests <= 0 || q.rule.windowMs <= 0 {
        assert Without(buckets, {}) == buckets;
        return Decision(true, 0);
      }
      if |buckets| >= 256 {
        var keys := buckets.Keys;
        ghost var swept: set<Key> := {};
        while keys != {}
          invariant keys <= old(buckets).Keys && swept == old(buckets).Keys - keys
          invariant buckets == Without(old(buckets), Expired(old(buckets), q.now) * swept)
          decreases keys
        {
          var key :| key in keys;
          if buckets[key].resetAt <= q.now { buckets := map k | k in buckets && k != key :: buckets[k]; }
          keys, swept := keys - {key}, swept + {key};
        }
        assert Expired(old(buckets), q.now) * swept == Expired(old(buckets), q.now);
      } else {
        assert Without(buckets, {}) == buckets;
      }
      var current := Bucket(0, q.now + q.rule.windowMs);
      if q.key in buckets && buckets[q.key].resetAt > q.now { current := buckets[q.key]; }
      current := current.(count := current.count + 1);
      buckets := buckets[q.key := current];
      d := Decision(current.count <= q.rule.maxRequests, Max(1, CeilDiv(current.resetAt - q.now, 1000)));
    }
  }

  class PostgresLimiter {
    var rows: Buckets

    constructor ()
      ensures rows == map[]
    {
      rows := map[];
    }

    /** DELETE of the hundred rows that expired first, then one INSERT … ON CONFLICT. */
    method ConsumeConfiguredRateLimit(q: Request) returns (d: Decision, gone: set<Key>)
      modifies this
      ensures gone <= Expired(old(rows), q.now) && |gone| <= 100
      ensures (rows, d) == Consume(Without(old(rows), gone), q)
    {
      gone := {};
      if q.rule.maxRequests <= 0 || q.rule.windowMs <= 0 {
        assert Without(rows, {}) == rows;
        return Decision(true, 0), gone;
      }
      var resets := map k | k in rows :: rows[k].resetAt;
      var picked := SelectOldest(resets, Expired(rows, q.now), 100);
      gone := Rows(picked);
      forall i, j | 0 <= i < j < |picked| ensures picked[i] != picked[j] { assert Earlier(resets, picked[i], picked[j]); }
      DistinctCount(picked);
      rows := map k | k in rows && k !in picked :: rows[k];
      assert rows == Without(old(rows), gone);
      if q.key in rows {
        var row := rows[q.key];
        rows := rows[q.key := Bucket(if row.resetAt <= q.now then 1 else row.count + 1,
                                     if row.resetAt <= q.now then q.now + q.rule.windowMs else row.resetAt)];
      } else {
        rows := rows[q.key := Bucket(1, q.now + q.rule.windowMs)];
      }
      d := Decision(rows[q.key].count <= q.rule.maxRequests, Max(1, CeilDiv(rows[q.key].resetAt - q.now, 1000)));
    }
  }

  // ----- eviction is invisible -----

  /** A limiter that first drops any expired buckets it likes. */
  function ConsumeEvicting(m: Buckets, q: Request, gone: set<Key>): (Buckets, Decision) {
    Consume(Without(m, gone), q)
  }

  predicate Clocked(qs: seq<Request>) {
    forall i, j :: 0 <= i < j < |qs| ==> qs[i].now <= qs[j].now
  }

  function RefBuckets(qs: seq<Request>): Buckets {
    if qs == [] then map[] else Consume(RefBuckets(qs[..|qs| - 1]), qs[|qs| - 1]).0
  }

  function RefDecision(qs: seq<Request>): Decision
    requires qs != []
  {
    Consume(RefBuckets(qs[..|qs| - 1]), qs[|qs| - 1]).1
  }

  function Evicting(qs: seq<Request>, gone: seq<set<Key>>): Buckets
    requires |qs| == |gone|
  {
    if qs == [] then map[]
    else ConsumeEvicting(Evicting(qs[..|qs| - 1], gone[..|qs| - 1]), qs[|qs| - 1], gone[|qs| - 1]).0
  }

  function EvictingDecision(qs: seq<Request>, gone: seq<set<Key>>): Decision
    requires |qs| == |gone| && qs != []
  {
    ConsumeEvicting(Evicting(qs[..|qs| - 1], gone[..|qs| - 1]), qs[|qs| - 1], gone[|qs| - 1]).1
  }

  /** Only expired buckets are dropped. */
  ghost predicate OnlyExpired(qs: seq<Request>, gone: seq<set<Key>>)
    requires |qs| == |gone|
  {
    qs == [] ||
    (OnlyExpired(qs[..|qs| - 1], gone[..|qs| - 1])
     && gone[|qs| - 1] <= Expired(Evicting(qs[..|qs| - 1], gone[..|qs| - 1]), qs[|qs| - 1].now))
  }

  /** The bucket, if its window is still open. */
  function Current(m: Buckets, k: Key, now: int): Option<Bucket> {
    if k in m && m[k].resetAt > now then Some(m[k]) else None
  }

  ghost predicate Agree(m: Buckets, n: Buckets, now: int) {
    forall k :: Current(m, k, now) == Current(n, k, now)
  }

  lemma AgreeLater(m: Buckets, n: Buckets, now: int, later: int)
    requires Agree(m, n, now) && now <= later
    ensures Agree(m, n, later)
  {
    forall k ensures Current(m, k, later) == Current(n, k, later) { assert Current(m, k, now) == Current(n, k, now); }
  }

  /** Limiters that agree on the open windows decide alike and go on agreeing. */
  lemma StepAgrees(m: Buckets, n: Buckets, q: Request, gone: set<Key>)
    requires Agree(m, n, q.now) && gone <= Expired(m, q.now)
    ensures ConsumeEvicting(m, q, gone).1 == Consume(n, q).1
    ensures Agree(ConsumeEvicting(m, q, gone).0, Consume(n, q).0, q.now)
  {
    var w := Without(m, gone);
    forall k ensures Current(w, k, q.now) == Current(n, k, q.now) { assert Current(m, k, q.now) == Current(n, k, q.now); }
    assert Current(w, q.key, q.now) == Current(n, q.key, q.now);
    assert Counted(w, q) == Counted(n, q);
    var u, v := ConsumeEvicting(m, q, gone).0, Consume(n, q).0;
    forall k ensures Current(u, k, q.now) == Current(v, k, q.now) { assert Current(w, k, q.now) == Current(n, k, q.now); }
  }

  lemma {:induction false} StillAgree(qs: seq<Request>, gone: seq<set<Key>>, now: int)
    requires |qs| == |gone| && Clocked(qs) && OnlyExpired(qs, gone) && (qs != [] ==> qs[|qs| - 1].now <= now)
    ensures Agree(Evicting(qs, gone), RefBuckets(qs), now)
  {
    if qs != [] {
      var init, last := qs[..|qs| - 1], qs[|qs| - 1];
      StillAgree(init, gone[..|qs| - 1], last.now);
      StepAgrees(Evicting(init, gone[..|qs| - 1]), RefBuckets(init), last, gone[|qs| - 1]);
      AgreeLater(Evicting(qs, gone), RefBuckets(qs), last.now, now);
    }
  }

  /**
    Eviction is invisible: for every request sequence on a non-decreasing clock and every choice
    of expired buckets dropped before each request, so for both backends, every decision is the
    one of the limiter that drops nothing.
  */
  lemma EvictionInvisible(qs: seq<Request>, gone: seq<set<Key>>)
    requires |qs| == |gone| && qs != [] && Clocked(qs) && OnlyExpired(qs, gone)
    ensures EvictingDecision(qs, gone) == RefDecision(qs)
  {
    var init, last := qs[..|qs| - 1], qs[|qs| - 1];
    StillAgree(init, gone[..|qs| - 1], last.now);
    StepAgrees(Evicting(init, gone[..|qs| - 1]), RefBuckets(init), last, gone[|qs| - 1]);
  }

  /** A limiter that agrees with the reference before the request's time agrees at it. */
  lemma AgreesByThen(m: Buckets, qs: seq<Request>, i: nat)
    requires i < |qs| && Clocked(qs)
    requires if i == 0 then m == map[] else Agree(m, RefBuckets(qs[..i]), qs[i - 1].now)
    ensures Agree(m, RefBuckets(qs[..i]), qs[i].now)
  {
    if i > 0 { AgreeLater(m, RefBuckets(qs[..i]), qs[i - 1].now, qs[i].now); }
  }

  /** One more request: the decision is the reference limiter's, and the agreement goes on. */
  lemma ServedLikeReference(m: Buckets, gone: set<Key>, qs: seq<Request>, i: nat)
    requires i < |qs| && Agree(m, RefBuckets(qs[..i]), qs[i].now) && gone <= Expired(m, qs[i].now)
    ensures var (u, d) := Consume(Without(m, gone), qs[i]);
      d == RefDecision(qs[..i + 1]) && Agree(u, RefBuckets(qs[..i + 1]), qs[i].now)
  {
    assert qs[..i + 1][..i] == qs[..i];
    StepAgrees(m, RefBuckets(qs[..i]), qs[i], gone);
  }

  /** The in-memory limiter, fed any requests on a non-decreasing clock, decides like the reference. */
  method ServeInMemory(qs: seq<Request>) returns (ds: seq<Decision>)
    requires Clocked(qs)
    ensures |ds| == |qs| && forall i :: 0 <= i < |qs| ==> ds[i] == RefDecision(qs[..i + 1])
  {
    hide Consume, Agree, RefBuckets, RefDecision, Clocked;
    var limiter := new MemoryLimiter();
    ds := [];
    for n := 0 to |qs|
      invariant |ds| == n && forall i :: 0 <= i < n ==> ds[i] == RefDecision(qs[..i + 1])
      invariant if n == 0 then limiter.buckets == map[] else Agree(limiter.buckets, RefBuckets(qs[..n]), qs[n - 1].now)
    {
      ghost var before := limiter.buckets;
      ghost var gone := if Positive(qs[n].rule) && |before| >= 256 then Expired(before, qs[n].now) else {};
      AgreesByThen(before, qs, n);
      ServedLikeReference(before, gone, qs, n);
      var d := limiter.ConsumeRateLimit(qs[n]);
      ds := ds + [d];
    }
  }

  /** So does the Postgres one, whichever hundred expired rows it deletes. */
  method ServeFromPostgres(qs: seq<Request>) returns (ds: seq<Decision>)
    requires Clocked(qs)
    ensures |ds| == |qs| && forall i :: 0 <= i < |qs| ==> ds[i] == RefDecision(qs[..i + 1])
  {
    hide Consume, Agree, RefBuckets, RefDecision, Clocked;
    var limiter := new PostgresLimiter();
    ds := [];
    for n := 0 to |qs|
      invariant |ds| == n && forall i :: 0 <= i < n ==> ds[i] == RefDecision(qs[..i + 1])
      invariant if n == 0 then limiter.rows == map[] else Agree(limiter.rows, RefBuckets(qs[..n]), qs[n - 1].now)
    {
      ghost var before := limiter.rows;
      AgreesByThen(before, qs, n);
      var d, gone := limiter.ConsumeConfiguredRateLimit(qs[n]);
      ServedLikeReference(before, gone, qs, n);
      ds := ds + [d];
    }
  }

  // ----- how many requests get through -----

  /** The allowed requests of a key at times in [lo, hi). */
  function AllowedIn(qs: seq<Request>, k: Key, lo: int, hi: int): nat {
    if qs == [] then 0
    else
      var q := qs[|qs| - 1];
      AllowedIn(qs[..|qs| - 1], k, lo, hi) + if q.key == k && lo <= q.now < hi && RefDecision(qs).allowed then 1 else 0
  }

  lemma {:induction false} AllowedSplits(qs: seq<Request>, k: Key, lo: int, mid: int, hi: int)
    requires lo <= mid <= hi
    ensures AllowedIn(qs, k, lo, hi) == AllowedIn(qs, k, lo, mid) + AllowedIn(qs, k, mid, hi)
  {
    if qs != [] { AllowedSplits(qs[..|qs| - 1], k, lo, mid, hi); }
  }

  lemma {:induction false} AllowedShrinks(qs: seq<Request>, k: Key, lo: int, hi: int, from: int, to: int)
    requires lo <= from && to <= hi
    ensures AllowedIn(qs, k, from, to) <= AllowedIn(qs, k, lo, hi)
  {
    if qs != [] { AllowedShrinks(qs[..|qs| - 1], k, lo, hi, from, to); }
  }

  /** Requests of the key all carry the rule, which has a positive maximum and window. */
  ghost predicate RuleOf(qs: seq<Request>, k: Key, r: Rule) {
    r.maxRequests > 0 && r.windowMs > 0 && forall i :: 0 <= i < |qs| && qs[i].key == k ==> qs[i].rule == r
  }

  /** From time `from` on, at most `n` requests of the key got through. */
  ghost predicate AtMostFrom(qs: seq<Request>, k: Key, from: int, n: int) {
    forall hi :: AllowedIn(qs, k, from, hi) <= n
  }

  /**
    The key's bucket opened at `start`: after its end nothing got through; from `start` on at most
    what it counted, up to the maximum, and one fewer after `start`; and in less than a window
    length before `start` fewer than the maximum.
  */
  ghost predicate WindowOf(qs: seq<Request>, k: Key, r: Rule, b: Bucket) {
    var start := b.resetAt - r.windowMs;
    && b.count >= 1
    && AtMostFrom(qs, k, b.resetAt, 0)
    && AtMostFrom(qs, k, start, Min(b.count, r.maxRequests))
    && AtMostFrom(qs, k, start + 1, Min(b.count, r.maxRequests) - 1)
    && AllowedIn(qs, k, start - r.windowMs + 1, start) <= r.maxRequests - 1
  }

  ghost predicate Windowed(qs: seq<Request>, k: Key, r: Rule) {
    if k in RefBuckets(qs) then WindowOf(qs, k, r, RefBuckets(qs)[k])
    else forall lo :: AtMostFrom(qs, k, lo, 0)
  }

  lemma {:induction false} StaysWindowed(qs: seq<Request>, k: Key, r: Rule)
    requires Clocked(qs) && RuleOf(qs, k, r)
    ensures Windowed(qs, k, r)
    ensures qs != [] && k in RefBuckets(qs) ==> RefBuckets(qs)[k].resetAt - r.windowMs <= qs[|qs| - 1].now
  {
    hide Windowed, AllowedIn;
    if qs == [] {
      NothingYet(k, r);
    } else {
      var init, q := qs[..|qs| - 1], qs[|qs| - 1];
      StaysWindowed(init, k, r);
      if q.key == k {
        var m := RefBuckets(init);
        if k in m && m[k].resetAt > q.now { SameWindow(qs, k, r); } else { NextWindow(qs, k, r); }
      } else {
        OtherKey(qs, k, r);
      }
    }
  }

  lemma NothingYet(k: Key, r: Rule)
    ensures Windowed([], k, r)
  {
  }

  lemma OtherKey(qs: seq<Request>, k: Key, r: Rule)
    requires qs != [] && qs[|qs| - 1].key != k && Windowed(qs[..|qs| - 1], k, r)
    ensures Windowed(qs, k, r) && Lookup(RefBuckets(qs), k) == Lookup(RefBuckets(qs[..|qs| - 1]), k)
  {
    hide AllowedIn, RefBuckets, AtMostFrom;
    var init := qs[..|qs| - 1];
    OtherKeyKept(qs, k);
    forall lo, n | AtMostFrom(init, k, lo, n) ensures AtMostFrom(qs, k, lo, n) { StillAtMost(qs, k, lo, n); }
    assert k in RefBuckets(qs) <==> k in RefBuckets(init);
    if k in RefBuckets(qs) {
      var start := RefBuckets(qs)[k].resetAt - r.windowMs;
      NotCounted(qs, k, start - r.windowMs + 1, start);
    }
  }

  lemma StillAtMost(qs: seq<Request>, k: Key, lo: int, n: int)
    requires qs != [] && qs[|qs| - 1].key != k && AtMostFrom(qs[..|qs| - 1], k, lo, n)
    ensures AtMostFrom(qs, k, lo, n)
  {
    hide AllowedIn;
    forall hi ensures AllowedIn(qs, k, lo, hi) <= n {
      NotCounted(qs, k, lo, hi);
      assert AllowedIn(qs[..|qs| - 1], k, lo, hi) <= n;
    }
  }

  lemma OtherKeyKept(qs: seq<Request>, k: Key)
    requires qs != [] && qs[|qs| - 1].key != k
    ensures Lookup(RefBuckets(qs), k) == Lookup(RefBuckets(qs[..|qs| - 1]), k)
  {
  }

  lemma NotCounted(qs: seq<Request>, k: Key, lo: int, hi: int)
    requires qs != [] && qs[|qs| - 1].key != k
    ensures AllowedIn(qs, k, lo, hi) == AllowedIn(qs[..|qs| - 1], k, lo, hi)
  {
  }

  /** A request of the key counts when it falls in the interval and its bucket is not over the maximum. */
  lemma OneMore(qs: seq<Request>, k: Key, r: Rule, lo: int, hi: int)
    requires qs != [] && Positive(r) && qs[|qs| - 1].key == k && qs[|qs| - 1].rule == r
    ensures var init, q := qs[..|qs| - 1], qs[|qs| - 1];
      && RefBuckets(qs) == RefBuckets(init)[k := Counted(RefBuckets(init), q)]
      && AllowedIn(qs, k, lo, hi) == AllowedIn(init, k, lo, hi)
           + if lo <= q.now < hi && Counted(RefBuckets(init), q).count <= r.maxRequests then 1 else 0
  {
  }

  /** One more request from `lo` on, allowed only while the bucket is not over the maximum. */
  lemma AtMostOneMore(qs: seq<Request>, k: Key, r: Rule, lo: int, n: int)
    requires qs != [] && Positive(r) && qs[|qs| - 1].key == k && qs[|qs| - 1].rule == r
    requires AtMostFrom(qs[..|qs| - 1], k, lo, n)
    ensures AtMostFrom(qs, k, lo, n + 1)
    ensures Counted(RefBuckets(qs[..|qs| - 1]), qs[|qs| - 1]).count > r.maxRequests || qs[|qs| - 1].now < lo ==> AtMostFrom(qs, k, lo, n)
  {
    hide AllowedIn, RefBuckets, Counted;
    var init := qs[..|qs| - 1];
    forall hi
      ensures AllowedIn(qs, k, lo, hi) <= n + 1
      ensures Counted(RefBuckets(init), qs[|qs| - 1]).count > r.maxRequests || qs[|qs| - 1].now < lo ==> AllowedIn(qs, k, lo, hi) <= n
    {
      OneMore(qs, k, r, lo, hi);
      assert AllowedIn(init, k, lo, hi) <= n;
    }
  }

  lemma SameWindow(qs: seq<Request>, k: Key, r: Rule)
    requires qs != [] && Positive(r) && Windowed(qs[..|qs| - 1], k, r)
    requires qs[|qs| - 1].key == k && qs[|qs| - 1].rule == r
    requires k in RefBuckets(qs[..|qs| - 1]) && RefBuckets(qs[..|qs| - 1])[k].resetAt > qs[|qs| - 1].now
    requires RefBuckets(qs[..|qs| - 1])[k].resetAt - r.windowMs <= qs[|qs| - 1].now
    ensures Windowed(qs, k, r)
  {
    hide AllowedIn, RefBuckets, AtMostFrom;
    var b := RefBuckets(qs[..|qs| - 1])[k];
    var start, used := b.resetAt - r.windowMs, Min(b.count, r.maxRequests);
    OneMore(qs, k, r, start - r.windowMs + 1, start);
    AtMostOneMore(qs, k, r, b.resetAt, 0);
    AtMostOneMore(qs, k, r, start, used);
    AtMostOneMore(qs, k, r, start + 1, used - 1);
  }

  lemma NextWindow(qs: seq<Request>, k: Key, r: Rule)
    requires qs != [] && Positive(r) && Windowed(qs[..|qs| - 1], k, r)
    requires qs[|qs| - 1].key == k && qs[|qs| - 1].rule == r
    requires k in RefBuckets(qs[..|qs| - 1]) ==> RefBuckets(qs[..|qs| - 1])[k].resetAt <= qs[|qs| - 1].now
    ensures Windowed(qs, k, r)
  {
    hide AllowedIn, RefBuckets, AtMostFrom;
    var init, q := qs[..|qs| - 1], qs[|qs| - 1];
    OneMore(qs, k, r, q.now - r.windowMs + 1, q.now);
    NothingSince(init, k, r, q.now);
    AtMostOneMore(qs, k, r, q.now, 0);
    AtMostOneMore(qs, k, r, q.now + 1, 0);
    AtMostOneMore(qs, k, r, q.now + r.windowMs, 0);
  }

  /** When the key has no open window, nothing got through from now on, and little just before. */
  lemma NothingSince(qs: seq<Request>, k: Key, r: Rule, now: int)
    requires Positive(r) && Windowed(qs, k, r) && (k in RefBuckets(qs) ==> RefBuckets(qs)[k].resetAt <= now)
    ensures forall lo :: now <= lo ==> AtMostFrom(qs, k, lo, 0)
    ensures AllowedIn(qs, k, now - r.windowMs + 1, now) <= r.maxRequests - 1
  {
    hide AllowedIn, RefBuckets;
    if k in RefBuckets(qs) {
      var b := RefBuckets(qs)[k];
      var start := b.resetAt - r.windowMs;
      forall lo, hi | now <= lo ensures AllowedIn(qs, k, lo, hi) <= 0 {
        AllowedShrinks(qs, k, b.resetAt, hi, lo, hi);
        assert AllowedIn(qs, k, b.resetAt, hi) <= 0;
      }
      AllowedShrinks(qs, k, start + 1, now, now - r.windowMs + 1, now);
    } else {
      assert AtMostFrom(qs, k, now - r.windowMs + 1, 0);
    }
  }

  /** An interval that reaches back before the current window meets only one earlier window. */
  lemma WindowParts(qs: seq<Request>, k: Key, r: Rule, a: int)
    requires Positive(r) && Windowed(qs, k, r) && k in RefBuckets(qs)
    requires a <= RefBuckets(qs)[k].resetAt - r.windowMs < a + r.windowMs
    ensures AllowedIn(qs, k, a, a + r.windowMs) <= 2 * r.maxRequests - 1
  {
    hide AllowedIn, RefBuckets;
    var start := RefBuckets(qs)[k].resetAt - r.windowMs;
    AllowedSplits(qs, k, a, start, a + r.windowMs);
    AllowedShrinks(qs, k, start - r.windowMs + 1, start, a, start);
  }

  /**
    The sliding bound: on a non-decreasing clock, any half-open interval as long as the window
    holds fewer than twice the maximum of allowed requests of a key.
  */
  lemma {:induction false} SlidingBound(qs: seq<Request>, k: Key, r: Rule, a: int)
    requires Clocked(qs) && RuleOf(qs, k, r)
    ensures AllowedIn(qs, k, a, a + r.windowMs) <= 2 * r.maxRequests - 1
  {
    hide RefBuckets;
    if qs != [] {
      var init, q := qs[..|qs| - 1], qs[|qs| - 1];
      SlidingBound(init, k, r, a);
      StaysWindowed(qs, k, r);
      if q.key == k && a <= q.now < a + r.windowMs {
        OneMore(qs, k, r, a, a + r.windowMs);
        var start := RefBuckets(qs)[k].resetAt - r.windowMs;
        if a <= start { WindowParts(qs, k, r, a); }
        else {
          AllowedShrinks(qs, k, start, a + r.windowMs, a, a + r.windowMs);
          assert AllowedIn(qs, k, start, a + r.windowMs) <= r.maxRequests;
        }
      }
    }
  }

  /** A single window, from the request that opened it, lets at most the maximum through. */
  lemma WindowBound(qs: seq<Request>, k: Key, r: Rule, hi: int)
    requires Clocked(qs) && RuleOf(qs, k, r) && k in RefBuckets(qs)
    ensures AllowedIn(qs, k, RefBuckets(qs)[k].resetAt - r.windowMs, hi) <= r.maxRequests
  {
    StaysWindowed(qs, k, r);
  }

  /** The bound is reached: one request opens a window, the next comes at its end, two more follow. */
  lemma SlidingBoundTight()
    ensures var r := Rule(2, 10);
      var qs := [Request(0, 0, r), Request(0, 9, r), Request(0, 10, r), Request(0, 11, r)];
      AllowedIn(qs, 0, 9, 19) == 2 * r.maxRequests - 1
  {
    var r := Rule(2, 10);
    var a, b, c, d := Request(0, 0, r), Request(0, 9, r), Request(0, 10, r), Request(0, 11, r);
    assert [a, b, c, d][..3] == [a, b, c] && [a, b, c][..2] == [a, b] && [a, b][..1] == [a] && [a][..0] == [];
    assert RefBuckets([]) == map[] && AllowedIn([], 0, 9, 19) == 0;
    OneMore([a], 0, r, 9, 19);
    OneMore([a, b], 0, r, 9, 19);
    OneMore([a, b, c], 0, r, 9, 19);
    OneMore([a, b, c, d], 0, r, 9, 19);
  }

  // ----- exactly which requests get through -----

  /** When the window of the key opened that its last request falls into. */
  function OpenedAt(qs: seq<Request>, k: Key): Option<int> {
    if qs == [] then None
    else
      var prior, q := OpenedAt(qs[..|qs| - 1], k), qs[|qs| - 1];
      if q.key != k then prior
      else if prior.Some? && q.now < prior.value + q.rule.windowMs then prior
      else Some(q.now)
  }

  /** The bucket of a key ends one window length after its opening, and has let through what it counted, up to the maximum. */
  lemma {:induction false} WindowExact(qs: seq<Request>, k: Key, r: Rule)
    requires Clocked(qs) && RuleOf(qs, k, r)
    ensures k in RefBuckets(qs) <==> OpenedAt(qs, k).Some?
    ensures k in RefBuckets(qs) ==>
      var b, start := RefBuckets(qs)[k], OpenedAt(qs, k).value;
      && b.resetAt == start + r.windowMs && b.count >= 1
      && start <= qs[|qs| - 1].now
      && AllowedIn(qs, k, start, qs[|qs| - 1].now + 1) == Min(b.count, r.maxRequests)
  {
    hide AllowedIn, RefBuckets, Counted;
    if qs == [] {
      assert RefBuckets(qs) == map[] by { NoBuckets(); }
    } else {
      var init, q := qs[..|qs| - 1], qs[|qs| - 1];
      WindowExact(init, k, r);
      StaysWindowed(init, k, r);
      if q.key == k {
        WindowStep(qs, k, r);
      } else {
        OtherKeyKept(qs, k);
        if k in RefBuckets(qs) {
          var start, was := OpenedAt(init, k).value, init[|init| - 1].now;
          NotCounted(qs, k, start, q.now + 1);
          NothingLater(init, k, start, was + 1, q.now + 1);
        }
      }
    }
  }

  lemma NoBuckets()
    ensures RefBuckets([]) == map[]
  {
  }

  /** Requests are not counted after the last of them. */
  lemma NothingLater(qs: seq<Request>, k: Key, lo: int, mid: int, hi: int)
    requires lo <= mid <= hi && forall i :: 0 <= i < |qs| ==> qs[i].now < mid
    ensures AllowedIn(qs, k, lo, hi) == AllowedIn(qs, k, lo, mid)
  {
    AllowedSplits(qs, k, lo, mid, hi);
    NoneIn(qs, k, mid, hi);
  }

  lemma {:induction false} NoneIn(qs: seq<Request>, k: Key, lo: int, hi: int)
    requires forall i :: 0 <= i < |qs| ==> qs[i].now < lo
    ensures AllowedIn(qs, k, lo, hi) == 0
  {
    if qs != [] { NoneIn(qs[..|qs| - 1], k, lo, hi); }
  }

  lemma WindowStep(qs: seq<Request>, k: Key, r: Rule)
    requires qs != [] && Clocked(qs) && RuleOf(qs, k, r) && qs[|qs| - 1].key == k && Windowed(qs[..|qs| - 1], k, r)
    requires var init := qs[..|qs| - 1];
      && (k in RefBuckets(init) <==> OpenedAt(init, k).Some?)
      && (k in RefBuckets(init) ==>
            && RefBuckets(init)[k].resetAt == OpenedAt(init, k).value + r.windowMs && RefBuckets(init)[k].count >= 1
            && OpenedAt(init, k).value <= init[|init| - 1].now
            && AllowedIn(init, k, OpenedAt(init, k).value, init[|init| - 1].now + 1) == Min(RefBuckets(init)[k].count, r.maxRequests))
    ensures k in RefBuckets(qs) && OpenedAt(qs, k).Some?
    ensures var b, start := RefBuckets(qs)[k], OpenedAt(qs, k).value;
      && b.resetAt == start + r.windowMs && b.count >= 1 && start <= qs[|qs| - 1].now
      && AllowedIn(qs, k, start, qs[|qs| - 1].now + 1) == Min(b.count, r.maxRequests)
  {
    hide AllowedIn, RefBuckets;
    var init, q := qs[..|qs| - 1], qs[|qs| - 1];
    var m := RefBuckets(init);
    if k in m && m[k].resetAt > q.now {
      var start := OpenedAt(init, k).value;
      OneMore(qs, k, r, start, q.now + 1);
      NothingLater(init, k, start, init[|init| - 1].now + 1, q.now + 1);
    } else {
      OneMore(qs, k, r, q.now, q.now + 1);
      NothingSince(init, k, r, q.now);
      assert AtMostFrom(init, k, q.now, 0);
    }
  }

  /**
    Exactly when a request gets through: when fewer than the maximum of the key's requests have been
    let through since its window opened, a window opening with the first request after the last one's end.
  */
  lemma AllowedIff(qs: seq<Request>, k: Key, r: Rule)
    requires qs != [] && Clocked(qs) && RuleOf(qs, k, r) && qs[|qs| - 1].key == k
    ensures OpenedAt(qs, k).Some?
    ensures RefDecision(qs).allowed <==>
      AllowedIn(qs[..|qs| - 1], k, OpenedAt(qs, k).value, qs[|qs| - 1].now + 1) < r.maxRequests
  {
    hide AllowedIn, RefBuckets;
    WindowExact(qs, k, r);
    var now := qs[|qs| - 1].now;
    OneMore(qs, k, r, OpenedAt(qs, k).value, now + 1);
    DecisionIs(qs, k, r);
  }

  lemma DecisionIs(qs: seq<Request>, k: Key, r: Rule)
    requires qs != [] && Positive(r) && qs[|qs| - 1].key == k && qs[|qs| - 1].rule == r
    ensures k in RefBuckets(qs) && RefDecision(qs) == Verdict(RefBuckets(qs)[k], qs[|qs| - 1])
    ensures RefDecision(qs).allowed <==> RefBuckets(qs)[k].count <= r.maxRequests
  {
  }

  /** `d` divided by a thousand, up, and at least one. */
  predicate WholeSeconds(s: int, d: int) {
    s >= 1 && s * 1000 >= d && (s > 1 ==> (s - 1) * 1000 < d)
  }

  /**
    The time to wait that a decision reports is the time to the end of the key's window in whole
    seconds, rounded up, at least one. A refused caller who waits that long and is the next to ask
    for the key gets through; one who asks before the window's end does not.
  */
  lemma RetryAfterIsExact(qs: seq<Request>, k: Key, r: Rule, later: Request)
    requires qs != [] && Clocked(qs + [later]) && RuleOf(qs + [later], k, r) && qs[|qs| - 1].key == k && later.key == k
    ensures OpenedAt(qs, k).Some?
    ensures WholeSeconds(RefDecision(qs).retryAfterSeconds, OpenedAt(qs, k).value + r.windowMs - qs[|qs| - 1].now)
    ensures !RefDecision(qs).allowed ==>
      (RefDecision(qs + [later]).allowed <==> later.now >= OpenedAt(qs, k).value + r.windowMs)
    ensures later.now >= qs[|qs| - 1].now + 1000 * RefDecision(qs).retryAfterSeconds ==> RefDecision(qs + [later]).allowed
  {
    hide AllowedIn, RefBuckets;
    var all := qs + [later];
    assert all[..|all| - 1] == qs && all[|qs|] == later;
    assert Clocked(qs) && RuleOf(qs, k, r) by {
      forall i, j | 0 <= i < j < |qs| ensures qs[i].now <= qs[j].now { assert all[i].now <= all[j].now; }
      forall i | 0 <= i < |qs| && qs[i].key == k ensures qs[i].rule == r { assert all[i].rule == r; }
    }
    assert qs[|qs| - 1].rule == r && later.rule == r by { assert all[|qs| - 1] == qs[|qs| - 1]; }
    WindowExact(qs, k, r);
    DecisionIs(qs, k, r);
    DecisionIs(all, k, r);
    OneMore(all, k, r, 0, 0);
    CeilIsExact(RefBuckets(qs)[k].resetAt - qs[|qs| - 1].now);
  }

  lemma CeilIsExact(d: int)
    ensures CeilDiv(d, 1000) * 1000 >= d && (CeilDiv(d, 1000) - 1) * 1000 < d
  {
  }

  /** A rule without a positive maximum or a positive window refuses nobody and counts nothing. */
  lemma DisabledRule(qs: seq<Request>)
    requires qs != [] && (qs[|qs| - 1].rule.maxRequests <= 0 || qs[|qs| - 1].rule.windowMs <= 0)
    ensures RefDecision(qs) == Decision(true, 0) && RefBuckets(qs) == RefBuckets(qs[..|qs| - 1])
  {
  }
}
