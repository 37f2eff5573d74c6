/** ORDER BY … LIMIT over integer keys, as the stores' queries use it. */
module Queries {

  /** Row `a` comes before row `b`: by time, then by id. */
  predicate Earlier(at: map<nat, int>, a: nat, b: nat)
    requires a in at && b in at
  {
    at[a] < at[b] || (at[a] == at[b] && a < b)
  }

  /** `picked` is what `ORDER BY at, id LIMIT limit` returns of the rows. */
  ghost predicate OldestFirst(at: map<nat, int>, rows: set<nat>, picked: seq<nat>, limit: nat)
    requires rows <= at.Keys
  {
    && |picked| <= limit
    && (forall i :: 0 <= i < |picked| ==> picked[i] in rows)
    && (forall i, j :: 0 <= i < j < |picked| ==> Earlier(at, picked[i], picked[j]))
    && (forall r :: r in rows && r !in picked ==>
          |picked| == limit && forall i :: 0 <= i < |picked| ==> Earlier(at, picked[i], r))
  }

  /** A non-empty set of rows has a first one. */
  lemma {:induction false} FirstRow(at: map<nat, int>, rows: set<nat>) returns (m: nat)
    requires rows != {} && rows <= at.Keys
    ensures m in rows && forall r :: r in rows && r != m ==> Earlier(at, m, r)
  {
    m :| m in rows;
    if rows != {m} {
      var n := FirstRow(at, rows - {m});
      var first := if Earlier(at, m, n) then m else n;
      forall r | r in rows && r != first ensures Earlier(at, first, r) { assert r == m || r in rows - {m}; }
      m := first;
    }
  }

  method SelectOldest(at: map<nat, int>, rows: set<nat>, limit: nat) returns (picked: seq<nat>)
    requires rows <= at.Keys
    ensures OldestFirst(at, rows, picked, limit)
  {
    picked := [];
    var rest := rows;
    while rest != {} && |picked| < limit
      invariant rest <= rows && |picked| <= limit
      invariant forall i :: 0 <= i < |picked| ==> picked[i] in rows
      invariant forall r :: r in rows ==> r in rest || r in picked
      invariant forall i, j :: 0 <= i < j < |picked| ==> Earlier(at, picked[i], picked[j])
      invariant forall i, r :: 0 <= i < |picked| && r in rest ==> Earlier(at, picked[i], r)
      decreases rest
    {
      ghost var first := FirstRow(at, rest);
      var row :| row in rest && forall r :: r in rest && r != row ==> Earlier(at, row, r);
      picked, rest := picked + [row], rest - {row};
    }
  }

  function Rows(picked: seq<nat>): set<nat> {
    set i | 0 <= i < |picked| :: picked[i]
  }

  lemma {:induction false} DistinctCount(picked: seq<nat>)
    requires forall i, j :: 0 <= i < j < |picked| ==> picked[i] != picked[j]
    ensures |Rows(picked)| == |picked|
  {
    if picked != [] {
      var init, last := picked[..|picked| - 1], picked[|picked| - 1];
      DistinctCount(init);
      assert Rows(picked) == Rows(init) + {last} && last !in Rows(init);
    }
  }

  /** Of rows that are older than all the others, a selection leaves none, or its limit fewer. */
  lemma OldestTaken(at: map<nat, int>, rows: set<nat>, picked: seq<nat>, limit: nat, oldest: set<nat>)
    requires rows <= at.Keys && oldest <= rows && OldestFirst(at, rows, picked, limit)
    requires forall r, p :: r in oldest && p in rows && p !in oldest ==> at[r] < at[p]
    ensures var left := oldest - Rows(picked); left == {} || |left| == |oldest| - limit
  {
    if r :| r in oldest && r !in picked {
      forall i | 0 <= i < |picked| ensures picked[i] in oldest { assert Earlier(at, picked[i], r); }
      forall i, j | 0 <= i < j < |picked| ensures picked[i] != picked[j] { assert Earlier(at, picked[i], picked[j]); }
      DistinctCount(picked);
      assert Rows(picked) <= oldest;
    } else {
      assert oldest - Rows(picked) == {};
    }
  }

  /** A non-empty set of ids has a smallest one. */
  lemma {:induction false} SmallestId(ids: set<nat>) returns (m: nat)
    requires ids != {}
    ensures m in ids && forall i :: i in ids ==> m <= i
  {
    m :| m in ids;
    if ids != {m} {
      var n := SmallestId(ids - {m});
      forall i | i in ids ensures (if m < n then m else n) <= i { assert i == m || i in ids - {m}; }
      m := if m < n then m else n;
    }
  }
}
