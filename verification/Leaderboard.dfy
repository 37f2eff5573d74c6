/**
  The domain leaderboard (src/reputation/engine.ts): claims, replications and checkpoints are
  tallied per actor and ranked. An actor is its lower-cased address, given by its rank in locale
  order; the letter case that is displayed is the one seen first.
*/
module Leaderboard {
  import opened Common
  import opened Queries

  type Text = string

  datatype Actor = Actor(key: nat, shown: Text)

  /** The key of the zero address. */
  const ZERO: nat := 0

  datatype Item =
    | ClaimItem(actor: Actor, status: nat)
    | ReplicationItem(actor: Actor, resolution: Option<nat>)
    | CheckpointItem(actor: Actor)

  datatype Stats = Stats(
    score: int, claims: nat, supportedClaims: nat, refutedClaims: nat, fraudulentClaims: nat,
    replications: nat, supportedReplications: nat, inconclusiveReplications: nat,
    refutedReplications: nat, fraudSignalReplications: nat, checkpoints: nat)

  const NOTHING := Stats(0, 0, 0, 0, 0, 0, 0, 0, 0, 0, 0)

  function Plus(a: Stats, b: Stats): Stats {
    Stats(a.score + b.score, a.claims + b.claims, a.supportedClaims + b.supportedClaims,
          a.refutedClaims + b.refutedClaims, a.fraudulentClaims + b.fraudulentClaims,
          a.replications + b.replications, a.supportedReplications + b.supportedReplications,
          a.inconclusiveReplications + b.inconclusiveReplications,
          a.refutedReplications + b.refutedReplications,
          a.fraudSignalReplications + b.fraudSignalReplications, a.checkpoints + b.checkpoints)
  }

  function WorkQualityScore(resolution: Option<nat>): int {
    if resolution == Some(1) || resolution == Some(2) then 25
    else if resolution == Some(3) then 10
    else if resolution == Some(4) then 30
    else if resolution == Some(5) then 35
    else if resolution == Some(6) then 5
    else 0
  }

  function ClaimScore(status: nat): int {
    10 + if status == 4 then 40 else if status == 3 then 25 else if status == 5 then -20 else if status == 6 then -60 else 0
  }

  /** What one item adds to its actor. */
  function Worth(item: Item): Stats {
    match item
    case ClaimItem(_, status) =>
      NOTHING.(score := ClaimScore(status), claims := 1,
               supportedClaims := if status == 3 || status == 4 then 1 else 0,
               refutedClaims := if status == 5 then 1 else 0,
               fraudulentClaims := if status == 6 then 1 else 0)
    case ReplicationItem(_, resolution) =>
      NOTHING.(score := WorkQualityScore(resolution), replications := 1,
               supportedReplications := if resolution == Some(1) || resolution == Some(2) then 1 else 0,
               inconclusiveReplications := if resolution == Some(3) then 1 else 0,
               refutedReplications := if resolution == Some(4) then 1 else 0,
               fraudSignalReplications := if resolution == Some(5) then 1 else 0)
    case CheckpointItem(_) => NOTHING.(checkpoints := 1)
  }

  /** Checkpoints of the zero address are skipped. */
  predicate Counts(item: Item) {
    !(item.CheckpointItem? && item.actor.key == ZERO)
  }

  function Total(items: seq<Item>, key: nat): Stats {
    if items == [] then NOTHING
    else
      var prior, item := Total(items[..|items| - 1], key), items[|items| - 1];
      if item.actor.key == key && Counts(item) then Plus(prior, Worth(item)) else prior
  }

  /** The actor's address in the letter case seen first. */
  function FirstShown(items: seq<Item>, key: nat): Option<Text> {
    if items == [] then None
    else
      var prior, item := FirstShown(items[..|items| - 1], key), items[|items| - 1];
      if prior.None? && item.actor.key == key && Counts(item) then Some(item.actor.shown) else prior
  }

  function Actors(items: seq<Item>): set<nat> {
    set i | 0 <= i < |items| && Counts(items[i]) :: items[i].actor.key
  }

  datatype Aggregate = Aggregate(shown: Text, stats: Stats)
  datatype Entry = Entry(rank: nat, key: nat, shown: Text, stats: Stats)

  /** `left` is listed before `right`: higher score, then smaller address. */
  predicate Ahead(left: Entry, right: Entry) {
    left.stats.score > right.stats.score || (left.stats.score == right.stats.score && left.key < right.key)
  }

  /** The board of the items: one entry per actor, with the actor's total, ranked 1..n strictly in order. */
  ghost predicate IsBoard(items: seq<Item>, board: seq<Entry>) {
    && (forall i :: 0 <= i < |board| ==> board[i].rank == i + 1 && board[i].stats == Total(items, board[i].key))
    && (forall i :: 0 <= i < |board| ==> board[i].key in Actors(items) && FirstShown(items, board[i].key) == Some(board[i].shown))
    && (forall k :: k in Actors(items) ==> exists i :: 0 <= i < |board| && board[i].key == k)
    && (forall i, j :: 0 <= i < j < |board| ==> Ahead(board[i], board[j]))
  }

  // ----- the computation -----

  ghost predicate Tallied(m: map<nat, Aggregate>, items: seq<Item>) {
    && m.Keys == Actors(items)
    && forall k :: k in m ==> m[k].stats == Total(items, k) && FirstShown(items, k) == Some(m[k].shown)
  }

  /** One item added to the Map of aggregates. */
  method Add(m: map<nat, Aggregate>, ghost items: seq<Item>, item: Item) returns (r: map<nat, Aggregate>)
    requires Tallied(m, items)
    ensures Tallied(r, items + [item])
  {
    hide Worth, Plus, Total, FirstShown, Actors;
    ActorsOfMore(items, item);
    forall k
      ensures Total(items + [item], k) == if item.actor.key == k && Counts(item) then Plus(Total(items, k), Worth(item)) else Total(items, k)
      ensures FirstShown(items + [item], k) ==
        if FirstShown(items, k).None? && item.actor.key == k && Counts(item) then Some(item.actor.shown) else FirstShown(items, k)
    {
      OneMoreItem(items, item, k);
    }
    if !Counts(item) { return m; }
    var aggregate := if item.actor.key in m then m[item.actor.key] else Aggregate(item.actor.shown, NOTHING);
    if item.actor.key !in m { NoItems(items, item.actor.key); }
    r := m[item.actor.key := aggregate.(stats := Plus(aggregate.stats, Worth(item)))];
  }

  lemma OneMoreItem(items: seq<Item>, item: Item, k: nat)
    ensures Total(items + [item], k) == if item.actor.key == k && Counts(item) then Plus(Total(items, k), Worth(item)) else Total(items, k)
    ensures FirstShown(items + [item], k) ==
      if FirstShown(items, k).None? && item.actor.key == k && Counts(item) then Some(item.actor.shown) else FirstShown(items, k)
  {
    hide Plus, Worth;
    assert (items + [item])[..|items|] == items;
  }

  lemma ActorsOfMore(items: seq<Item>, item: Item)
    ensures Actors(items + [item]) == Actors(items) + if Counts(item) then {item.actor.key} else {}
  {
    var all := items + [item];
    forall k | k in Actors(items) ensures k in Actors(all) {
      var i :| 0 <= i < |items| && Counts(items[i]) && items[i].actor.key == k;
      assert all[i] == items[i];
    }
    if Counts(item) { assert all[|items|] == item; }
    forall k | k in Actors(all) ensures k in Actors(items) || (Counts(item) && k == item.actor.key) {
      var i :| 0 <= i < |all| && Counts(all[i]) && all[i].actor.key == k;
      assert i < |items| ==> all[i] == items[i];
    }
  }

  lemma {:induction false} NoItems(items: seq<Item>, key: nat)
    requires key !in Actors(items)
    ensures Total(items, key) == NOTHING && FirstShown(items, key) == None
  {
    if items != [] {
      var init, item := items[..|items| - 1], items[|items| - 1];
      assert items == init + [item];
      ActorsOfMore(init, item);
      NoItems(init, key);
    }
  }

  method ComputeLeaderboard(claims: seq<(Actor, nat)>, replications: seq<(Actor, Option<nat>)>, checkpoints: seq<Actor>)
      returns (board: seq<Entry>)
    ensures IsBoard(ItemsOf(claims, replications, checkpoints), board)
  {
    var m: map<nat, Aggregate> := map[];
    for i := 0 to |claims|
      invariant Tallied(m, ItemsOf(claims[..i], [], []))
    {
      assert ItemsOf(claims[..i + 1], [], []) == ItemsOf(claims[..i], [], []) + [ClaimItem(claims[i].0, claims[i].1)];
      m := Add(m, ItemsOf(claims[..i], [], []), ClaimItem(claims[i].0, claims[i].1));
    }
    assert claims[..|claims|] == claims && replications[..0] == [] && checkpoints[..0] == [];
    for i := 0 to |replications|
      invariant Tallied(m, ItemsOf(claims, replications[..i], []))
    {
      var item := ReplicationItem(replications[i].0, replications[i].1);
      assert ItemsOf(claims, replications[..i + 1], []) == ItemsOf(claims, replications[..i], []) + [item];
      m := Add(m, ItemsOf(claims, replications[..i], []), item);
    }
    assert replications[..|replications|] == replications;
    for i := 0 to |checkpoints|
      invariant Tallied(m, ItemsOf(claims, replications, checkpoints[..i]))
    {
      var item := CheckpointItem(checkpoints[i]);
      assert ItemsOf(claims, replications, checkpoints[..i + 1]) == ItemsOf(claims, replications, checkpoints[..i]) + [item];
      m := Add(m, ItemsOf(claims, replications, checkpoints[..i]), item);
    }
    assert checkpoints[..|checkpoints|] == checkpoints;
    board := Order(ItemsOf(claims, replications, checkpoints), m);
  }

  /** Claims first, then replications, then checkpoints. */
  function ItemsOf(claims: seq<(Actor, nat)>, replications: seq<(Actor, Option<nat>)>, checkpoints: seq<Actor>): seq<Item> {
    seq(|claims|, i requires 0 <= i < |claims| => ClaimItem(claims[i].0, claims[i].1))
    + seq(|replications|, i requires 0 <= i < |replications| => ReplicationItem(replications[i].0, replications[i].1))
    + seq(|checkpoints|, i requires 0 <= i < |checkpoints| => CheckpointItem(checkpoints[i]))
  }

  /** The sort, and the ranks. */
  method Order(ghost items: seq<Item>, m: map<nat, Aggregate>) returns (board: seq<Entry>)
    requires Tallied(m, items)
    ensures IsBoard(items, board)
  {
    var order := map k | k in m :: -m[k].stats.score;
    var keys := SelectOldest(order, m.Keys, |m|);
    AllPicked(order, m.Keys, keys);
    board := seq(|keys|, i requires 0 <= i < |keys| && keys[i] in m => Entry(i + 1, keys[i], m[keys[i]].shown, m[keys[i]].stats));
    forall i, j | 0 <= i < j < |board| ensures Ahead(board[i], board[j]) { assert Earlier(order, keys[i], keys[j]); }
    forall k | k in Actors(items) ensures exists i :: 0 <= i < |board| && board[i].key == k {
      assert k in keys;
      var i :| 0 <= i < |keys| && keys[i] == k;
      assert board[i].key == k;
    }
  }

  lemma AllPicked(at: map<nat, int>, rows: set<nat>, picked: seq<nat>)
    requires rows <= at.Keys && OldestFirst(at, rows, picked, |rows|)
    ensures forall r :: r in rows <==> r in picked
  {
    var chosen := Rows(picked);
    forall i, j | 0 <= i < j < |picked| ensures picked[i] != picked[j] { assert Earlier(at, picked[i], picked[j]); }
    DistinctCount(picked);
    assert chosen <= rows;
    if |picked| == |rows| {
      assert |rows - chosen| == |rows| - |chosen|;
      assert rows - chosen == {};
    }
    forall r ensures r in picked <==> r in chosen {
      if r in picked { var i :| 0 <= i < |picked| && picked[i] == r; }
    }
  }

  // ----- what an entry says -----

  function Count(items: seq<Item>, which: Item -> bool): nat {
    if items == [] then 0 else Count(items[..|items| - 1], which) + if which(items[|items| - 1]) then 1 else 0
  }

  /** The actor's claims that ended in that status, its replications with that resolution, and all of them. */
  function ClaimsIn(key: nat, status: nat): Item -> bool {
    (i: Item) => i.ClaimItem? && i.actor.key == key && i.status == status
  }

  function ReplicationsIn(key: nat, resolution: nat): Item -> bool {
    (i: Item) => i.ReplicationItem? && i.actor.key == key && i.resolution == Some(resolution)
  }

  function ClaimsBy(key: nat): Item -> bool { (i: Item) => i.ClaimItem? && i.actor.key == key }
  function ReplicationsBy(key: nat): Item -> bool { (i: Item) => i.ReplicationItem? && i.actor.key == key }
  function CheckpointsOf(key: nat): Item -> bool { (i: Item) => i.CheckpointItem? && i.actor.key == key }

  /** Ten points a claim, and more or fewer for its outcome; points for a replication by its resolution. */
  predicate Scores(stats: Stats, items: seq<Item>, key: nat) {
    && stats.claims == Count(items, ClaimsBy(key))
    && stats.supportedClaims == Count(items, ClaimsIn(key, 3)) + Count(items, ClaimsIn(key, 4))
    && stats.refutedClaims == Count(items, ClaimsIn(key, 5))
    && stats.fraudulentClaims == Count(items, ClaimsIn(key, 6))
    && stats.replications == Count(items, ReplicationsBy(key))
    && stats.supportedReplications == Count(items, ReplicationsIn(key, 1)) + Count(items, ReplicationsIn(key, 2))
    && stats.inconclusiveReplications == Count(items, ReplicationsIn(key, 3))
    && stats.refutedReplications == Count(items, ReplicationsIn(key, 4))
    && stats.fraudSignalReplications == Count(items, ReplicationsIn(key, 5))
    && stats.checkpoints == (if key == 0 then 0 else Count(items, CheckpointsOf(key)))
    && stats.score ==
         10 * stats.claims + 25 * Count(items, ClaimsIn(key, 3)) + 40 * Count(items, ClaimsIn(key, 4))
         - 20 * stats.refutedClaims - 60 * stats.fraudulentClaims
         + 25 * stats.supportedReplications + 10 * stats.inconclusiveReplications + 30 * stats.refutedReplications
         + 35 * stats.fraudSignalReplications + 5 * Count(items, ReplicationsIn(key, 6))
  }

  lemma ScoresMore(stats: Stats, items: seq<Item>, key: nat)
    requires items != [] && Scores(stats, items[..|items| - 1], key)
    ensures var item := items[|items| - 1];
      Scores(if item.actor.key == key && Counts(item) then Plus(stats, Worth(item)) else stats, items, key)
  {
    hide Count;
    var init, item := items[..|items| - 1], items[|items| - 1];
    forall which ensures Count(items, which) == Count(init, which) + if which(item) then 1 else 0 { CountMore(items, which); }
  }

  lemma CountMore(items: seq<Item>, which: Item -> bool)
    requires items != []
    ensures Count(items, which) == Count(items[..|items| - 1], which) + if which(items[|items| - 1]) then 1 else 0
  {
  }

  lemma {:induction false} TotalScores(items: seq<Item>, key: nat)
    ensures Scores(Total(items, key), items, key)
  {
    hide Scores, Plus, Worth;
    if items == [] {
      NothingScored(key);
    } else {
      TotalScores(items[..|items| - 1], key);
      ScoresMore(Total(items[..|items| - 1], key), items, key);
    }
  }

  lemma NothingScored(key: nat)
    ensures Scores(NOTHING, [], key)
  {
  }

  /**
    Every entry of a board counts its actor's items, its score follows from the counts, and whoever
    comes later has a lower score, or the same score and a larger address.
  */
  lemma EntriesScore(items: seq<Item>, board: seq<Entry>, i: nat)
    requires IsBoard(items, board) && i < |board|
    ensures Scores(board[i].stats, items, board[i].key) && board[i].rank == i + 1
    ensures forall j :: i < j < |board| ==>
      board[j].stats.score < board[i].stats.score
      || (board[j].stats.score == board[i].stats.score && board[i].key < board[j].key)
  {
    hide Scores, Total;
    TotalScores(items, board[i].key);
  }

  // ----- the board depends on the bag of items only -----

  lemma PlusNothing(a: Stats)
    ensures Plus(a, NOTHING) == a && Plus(NOTHING, a) == a
  {
  }

  lemma PlusAssociates(a: Stats, b: Stats, c: Stats)
    ensures Plus(Plus(a, b), c) == Plus(a, Plus(b, c))
  {
  }

  lemma PlusSwaps(a: Stats, b: Stats, c: Stats)
    ensures Plus(Plus(a, b), c) == Plus(Plus(a, c), b)
  {
  }

  lemma {:induction false} TotalOfConcat(a: seq<Item>, b: seq<Item>, key: nat)
    ensures Total(a + b, key) == Plus(Total(a, key), Total(b, key))
  {
    hide Plus, Worth;
    if b == [] {
      assert a + b == a;
      PlusNothing(Total(a, key));
    } else {
      var init, x := b[..|b| - 1], b[|b| - 1];
      assert (a + b)[..|a + b| - 1] == a + init;
      TotalOfConcat(a, init, key);
      PlusAssociates(Total(a, key), Total(init, key), Worth(x));
    }
  }

  lemma SameRest(a: seq<Item>, b: seq<Item>, init: seq<Item>, front: seq<Item>, back: seq<Item>, x: Item)
    requires multiset(a) == multiset(b) && a == init + [x] && b == front + [x] + back
    ensures multiset(init) == multiset(front + back)
  {
    assert multiset(a) == multiset(init) + multiset{x};
    assert multiset(b) == multiset(front) + multiset{x} + multiset(back);
    assert multiset(front + back) == multiset(front) + multiset(back);
    assert multiset(init) == multiset(a) - multiset{x};
    assert multiset(front) + multiset(back) == multiset(b) - multiset{x};
  }

  lemma {:induction false} TotalOfBag(a: seq<Item>, b: seq<Item>, key: nat)
    requires multiset(a) == multiset(b)
    ensures Total(a, key) == Total(b, key)
  {
    hide Worth, Plus, Total;
    if a == [] {
      assert |multiset(b)| == 0;
      assert b == [];
    } else {
      var init, x := a[..|a| - 1], a[|a| - 1];
      assert a == init + [x];
      assert x in multiset(b);
      var j :| 0 <= j < |b| && b[j] == x;
      var front, back := b[..j], b[j + 1..];
      assert b == front + [x] + back;
      SameRest(a, b, init, front, back, x);
      TotalOfBag(init, front + back, key);
      TotalOfConcat(front, back, key);
      TotalOfConcat(front, [x], key);
      TotalOfConcat(front + [x], back, key);
      TotalOfConcat(init, [x], key);
      PlusSwaps(Total(front, key), Total(back, key), Total([x], key));
    }
  }

  lemma ActorsOfBag(a: seq<Item>, b: seq<Item>)
    requires multiset(a) == multiset(b)
    ensures Actors(a) == Actors(b)
  {
    forall k ensures k in Actors(a) <==> k in Actors(b) {
      if k in Actors(a) {
        var i :| 0 <= i < |a| && Counts(a[i]) && a[i].actor.key == k;
        assert a[i] in multiset(b);
        var j :| 0 <= j < |b| && b[j] == a[i];
      }
      if k in Actors(b) {
        var i :| 0 <= i < |b| && Counts(b[i]) && b[i].actor.key == k;
        assert b[i] in multiset(a);
        var j :| 0 <= j < |a| && a[j] == b[i];
      }
    }
  }

  ghost predicate SameTotals(items: seq<Item>, others: seq<Item>) {
    Actors(items) == Actors(others) && forall k :: Total(items, k) == Total(others, k)
  }

  lemma NotBehind(items: seq<Item>, others: seq<Item>, a: seq<Entry>, b: seq<Entry>, i: nat)
    requires IsBoard(items, a) && IsBoard(others, b) && SameTotals(items, others) && i < |a| && i < |b|
    requires forall j :: 0 <= j < i ==> a[j].key == b[j].key
    ensures a[i].key == b[i].key || Ahead(a[i], b[i])
  {
    hide Total, Actors, FirstShown;
    var n :| 0 <= n < |a| && a[n].key == b[i].key;
    assert a[n].stats == b[i].stats;
    assert n < i ==> Ahead(b[n], b[i]);
    assert n > i ==> Ahead(a[i], a[n]);
  }

  /** A strict order lists a set of entries in one way. */
  lemma {:induction false} OneRanking(items: seq<Item>, others: seq<Item>, a: seq<Entry>, b: seq<Entry>, i: nat)
    requires IsBoard(items, a) && IsBoard(others, b) && SameTotals(items, others) && i <= |a| && i <= |b|
    ensures forall j :: 0 <= j < i ==> a[j].key == b[j].key
  {
    hide IsBoard, SameTotals;
    if i > 0 {
      OneRanking(items, others, a, b, i - 1);
      assert SameTotals(others, items) by { SameTotalsBack(items, others); }
      NotBehind(items, others, a, b, i - 1);
      NotBehind(others, items, b, a, i - 1);
    }
  }

  lemma SameTotalsBack(items: seq<Item>, others: seq<Item>)
    requires SameTotals(items, others)
    ensures SameTotals(others, items)
  {
  }

  /**
    Permuting the claims, the replications and the checkpoints changes nothing but the displayed
    letter case: same actors, scores, counts and ranks.
  */
  lemma OrderIrrelevant(items: seq<Item>, permuted: seq<Item>, a: seq<Entry>, b: seq<Entry>)
    requires multiset(items) == multiset(permuted) && IsBoard(items, a) && IsBoard(permuted, b)
    ensures |a| == |b| && forall i :: 0 <= i < |a| ==> a[i].(shown := b[i].shown) == b[i]
  {
    hide Total, Actors, FirstShown;
    ActorsOfBag(items, permuted);
    forall k ensures Total(items, k) == Total(permuted, k) { TotalOfBag(items, permuted, k); }
    BoardSize(items, a);
    BoardSize(permuted, b);
    OneRanking(items, permuted, a, b, |a|);
  }

  lemma BoardSize(items: seq<Item>, board: seq<Entry>)
    requires IsBoard(items, board)
    ensures |board| == |Actors(items)|
  {
    hide Total;
    var keys := seq(|board|, i requires 0 <= i < |board| => board[i].key);
    forall i, j | 0 <= i < j < |keys| ensures keys[i] != keys[j] { assert Ahead(board[i], board[j]); }
    DistinctCount(keys);
    assert Rows(keys) == Actors(items) by {
      forall k | k in Actors(items) ensures exists i :: 0 <= i < |keys| && keys[i] == k {
        var i :| 0 <= i < |board| && board[i].key == k;
        assert keys[i] == k;
      }
    }
  }

  // ----- conservation -----

  function SumStats(board: seq<Entry>): Stats {
    if board == [] then NOTHING else Plus(SumStats(board[..|board| - 1]), board[|board| - 1].stats)
  }

  function SumKeys(items: seq<Item>, keys: seq<nat>): Stats {
    if keys == [] then NOTHING else Plus(SumKeys(items, keys[..|keys| - 1]), Total(items, keys[|keys| - 1]))
  }

  /** Everything all items add. */
  function Everything(items: seq<Item>): Stats {
    if items == [] then NOTHING
    else Plus(Everything(items[..|items| - 1]), if Counts(items[|items| - 1]) then Worth(items[|items| - 1]) else NOTHING)
  }

  lemma {:induction false} SumOfEntries(items: seq<Item>, board: seq<Entry>, keys: seq<nat>)
    requires |keys| == |board| && forall i :: 0 <= i < |board| ==> keys[i] == board[i].key && board[i].stats == Total(items, keys[i])
    ensures SumStats(board) == SumKeys(items, keys)
  {
    hide Total, Plus;
    if board != [] { SumOfEntries(items, board[..|board| - 1], keys[..|keys| - 1]); }
  }

  lemma {:induction false} SumOfMore(items: seq<Item>, item: Item, keys: seq<nat>)
    requires forall i, j :: 0 <= i < j < |keys| ==> keys[i] != keys[j]
    ensures SumKeys(items + [item], keys) ==
      Plus(SumKeys(items, keys), if Counts(item) && item.actor.key in keys then Worth(item) else NOTHING)
  {
    hide Worth, Plus;
    PlusNothing(NOTHING);
    if keys != [] {
      var init, k := keys[..|keys| - 1], keys[|keys| - 1];
      SumOfMore(items, item, init);
      PlusNothing(SumKeys(items, init));
      PlusNothing(SumKeys(items, keys));
      PlusAssociates(SumKeys(items, init), Total(items, k), Worth(item));
      PlusSwaps(SumKeys(items, init), Worth(item), Total(items, k));
      assert keys == init + [k];
      assert (items + [item])[..|items|] == items;
      assert Total(items + [item], k) == if item.actor.key == k && Counts(item) then Plus(Total(items, k), Worth(item)) else Total(items, k);
    }
  }

  lemma {:induction false} SumIsEverything(items: seq<Item>, keys: seq<nat>)
    requires forall i, j :: 0 <= i < j < |keys| ==> keys[i] != keys[j]
    requires forall k :: k in Actors(items) ==> k in keys
    ensures SumKeys(items, keys) == Everything(items)
  {
    hide Worth, Plus;
    if items == [] {
      NothingAdds(keys);
    } else {
      var init, item := items[..|items| - 1], items[|items| - 1];
      assert items == init + [item];
      ActorsOfMore(init, item);
      SumIsEverything(init, keys);
      SumOfMore(init, item, keys);
    }
  }

  lemma {:induction false} NothingAdds(keys: seq<nat>)
    ensures SumKeys([], keys) == NOTHING
  {
    hide Plus;
    PlusNothing(NOTHING);
    if keys != [] { NothingAdds(keys[..|keys| - 1]); }
  }

  /** The entries add up: every claim, replication and non-zero checkpoint is on the board once. */
  lemma BoardConserves(items: seq<Item>, board: seq<Entry>)
    requires IsBoard(items, board)
    ensures SumStats(board) == Everything(items)
  {
    hide Total, Worth;
    var keys := seq(|board|, i requires 0 <= i < |board| => board[i].key);
    forall i, j | 0 <= i < j < |keys| ensures keys[i] != keys[j] { assert Ahead(board[i], board[j]); }
    forall k | k in Actors(items) ensures k in keys {
      var i :| 0 <= i < |board| && board[i].key == k;
      assert keys[i] == k;
    }
    SumOfEntries(items, board, keys);
    SumIsEverything(items, keys);
  }

  function CountIf(items: seq<Item>, p: Item -> bool): nat {
    if items == [] then 0 else CountIf(items[..|items| - 1], p) + if p(items[|items| - 1]) then 1 else 0
  }

  /** In particular the counts add up to the numbers of items. */
  lemma {:induction false} EverythingCounts(items: seq<Item>)
    ensures Everything(items).claims == CountIf(items, (x: Item) => x.ClaimItem?)
    ensures Everything(items).replications == CountIf(items, (x: Item) => x.ReplicationItem?)
    ensures Everything(items).checkpoints == CountIf(items, (x: Item) => x.CheckpointItem? && x.actor.key != ZERO)
  {
    if items != [] { EverythingCounts(items[..|items| - 1]); }
  }
}
