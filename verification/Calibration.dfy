/**
  Reviewer calibration and weighted aggregation (src/review/calibration.ts and
  `aggregateSubmittedDimension` of src/review/aggregation.ts).
*/
module Calibration {
  import opened Common
  import opened Rounding

  type Text = string

  datatype Verdict = Pass | Inconclusive | Flag | Fail

  datatype Dimension =
    | ArtifactCompleteness | ArtifactIntegrity | MethodConsistency | StatisticalSanity | ReproducibilityReadiness
    | ReplicationSupport | ReviewCoverage | ReviewDiversity | ReviewFreshness | ForecastSupport
    | ChallengePressure | ContradictionPressure | CertificationReadiness

  datatype Claim = Claim(id: Text, status: nat)

  /** `agent` and `claim` are empty when the submission names none. */
  datatype Submission = Submission(agent: Text, claim: Text, verdict: Verdict, confidenceBps: int, dimensions: map<Dimension, int>)

  function OutcomeSupport(status: nat): Option<int> {
    if status == 3 then Some(7_000) else if status == 4 then Some(9_000)
    else if status == 5 then Some(2_000) else if status == 6 then Some(500) else None
  }

  function SupportSignal(v: Verdict): int {
    if v.Pass? then 8_500 else if v.Inconclusive? then 5_000 else if v.Flag? then 2_000 else 1_500
  }

  function Abs(x: int): int {
    if x < 0 then -x else x
  }

  function CalibrationWeight(average: Option<int>): int {
    if average.None? then 10_000 else ClampBps(RoundDiv(4_000 * 10_000 + average.value * 6_000, 10_000))
  }

  /** The decided outcomes, without the excluded claim; a later row of a claim replaces an earlier. */
  function Outcomes(claims: seq<Claim>, exclude: Option<Text>): map<Text, int> {
    if claims == [] then map[]
    else
      var m, c := Outcomes(claims[..|claims| - 1], exclude), claims[|claims| - 1];
      if Some(c.id) == exclude || OutcomeSupport(c.status).None? then m else m[c.id := OutcomeSupport(c.status).value]
  }

  /** How well one submission predicted its claim's outcome, if it counts. */
  function Contribution(outcomes: map<Text, int>, s: Submission): Option<int> {
    if s.agent == "" || s.claim == "" || s.claim !in outcomes then None
    else Some(ClampBps(10_000 - Abs(SupportSignal(s.verdict) - outcomes[s.claim])))
  }

  function Contributions(outcomes: map<Text, int>, subs: seq<Submission>, agent: Text): seq<int> {
    if subs == [] then []
    else
      var prior, s := Contributions(outcomes, subs[..|subs| - 1], agent), subs[|subs| - 1];
      var c := Contribution(outcomes, s);
      if c.Some? && s.agent == agent then prior + [c.value] else prior
  }

  datatype Entry = Entry(samples: nat, average: Option<int>, weightBps: int)

  function EntryOf(contributions: seq<int>): Entry {
    Entry(|contributions|, Average(contributions), CalibrationWeight(Average(contributions)))
  }

  /** `buildAgentCalibrationHistory`: one pass fills a Map of contributions, then each is averaged. */
  method BuildAgentCalibrationHistory(claims: seq<Claim>, subs: seq<Submission>, exclude: Option<Text>)
      returns (history: map<Text, Entry>)
    ensures forall a :: a in history <==> Contributions(Outcomes(claims, exclude), subs, a) != []
    ensures forall a :: a in history ==> history[a] == EntryOf(Contributions(Outcomes(claims, exclude), subs, a))
  {
    var outcomes := map[];
    for i := 0 to |claims|
      invariant outcomes == Outcomes(claims[..i], exclude)
    {
      assert claims[..i + 1][..i] == claims[..i];
      var outcome := OutcomeSupport(claims[i].status);
      if Some(claims[i].id) != exclude && outcome.Some? { outcomes := outcomes[claims[i].id := outcome.value]; }
    }
    assert claims[..|claims|] == claims;
    var aggregates: map<Text, seq<int>> := map[];
    for i := 0 to |subs|
      invariant forall a :: a in aggregates <==> Contributions(outcomes, subs[..i], a) != []
      invariant forall a :: a in aggregates ==> aggregates[a] == Contributions(outcomes, subs[..i], a)
    {
      assert subs[..i + 1][..i] == subs[..i];
      var s := subs[i];
      var c := Contribution(outcomes, s);
      if c.None? { continue; }
      var prior := if s.agent in aggregates then aggregates[s.agent] else [];
      aggregates := aggregates[s.agent := prior + [c.value]];
    }
    assert subs[..|subs|] == subs;
    history := map a | a in aggregates :: EntryOf(aggregates[a]);
  }

  // ----- bounds -----

  lemma {:induction false} OutcomesInRange(claims: seq<Claim>, exclude: Option<Text>)
    ensures forall c :: c in Outcomes(claims, exclude) ==> Outcomes(claims, exclude)[c] in {7_000, 9_000, 2_000, 500}
  {
    if claims != [] { OutcomesInRange(claims[..|claims| - 1], exclude); }
  }

  lemma ContributionInRange(claims: seq<Claim>, exclude: Option<Text>, s: Submission)
    ensures var c := Contribution(Outcomes(claims, exclude), s); c.Some? ==> 2_000 <= c.value <= 10_000
  {
    hide Outcomes;
    OutcomesInRange(claims, exclude);
  }

  predicate InRange(cs: seq<int>) {
    forall i :: 0 <= i < |cs| ==> 2_000 <= cs[i] <= 10_000
  }

  lemma {:induction false} ContributionsInRange(claims: seq<Claim>, exclude: Option<Text>, subs: seq<Submission>, agent: Text)
    ensures InRange(Contributions(Outcomes(claims, exclude), subs, agent))
  {
    hide Outcomes, Contribution;
    var outcomes := Outcomes(claims, exclude);
    if subs != [] {
      var init, s := subs[..|subs| - 1], subs[|subs| - 1];
      ContributionsInRange(claims, exclude, init, agent);
      ContributionInRange(claims, exclude, s);
      assert InRange(Contributions(outcomes, init, agent));
      assert InRange(Contributions(outcomes, subs, agent));
    }
  }

  /** A calibrated agent's weight lies between 5200 and 10000 basis points. */
  lemma CalibratedWeight(claims: seq<Claim>, exclude: Option<Text>, subs: seq<Submission>, agent: Text)
    ensures var e := EntryOf(Contributions(Outcomes(claims, exclude), subs, agent));
      && 5_200 <= e.weightBps <= 10_000
      && (e.samples > 0 ==> 2_000 <= e.average.value <= 10_000)
      && (e.samples == 0 ==> e.weightBps == 10_000)
  {
    hide Contributions, Outcomes;
    var cs := Contributions(Outcomes(claims, exclude), subs, agent);
    ContributionsInRange(claims, exclude, subs, agent);
    if cs != [] {
      AverageBetween(cs, 2_000, 10_000);
      RoundDivBetween(4_000 * 10_000 + Average(cs).value * 6_000, 10_000, 5_200, 10_000);
    }
  }

  // ----- weight follows correctness -----

  /** The last decided status among the claim's rows; none for the excluded claim. */
  function DecidedStatus(claims: seq<Claim>, exclude: Option<Text>, id: Text): Option<nat> {
    if claims == [] || exclude == Some(id) then None
    else
      var c := claims[|claims| - 1];
      if c.id == id && 3 <= c.status <= 6 then Some(c.status) else DecidedStatus(claims[..|claims| - 1], exclude, id)
  }

  /** Statuses 3 and 4 support the claim, 5 and 6 speak against it; the extremes are 4 and 6. */
  lemma {:induction false} OutcomesAre(claims: seq<Claim>, exclude: Option<Text>, id: Text)
    ensures id in Outcomes(claims, exclude) <==> DecidedStatus(claims, exclude, id).Some?
    ensures DecidedStatus(claims, exclude, id).Some? ==>
      var st := DecidedStatus(claims, exclude, id).value;
      3 <= st <= 6 && Outcomes(claims, exclude)[id] == if st == 3 then 7_000 else if st == 4 then 9_000 else if st == 5 then 2_000 else 500
  {
    if claims != [] { OutcomesAre(claims[..|claims| - 1], exclude, id); }
  }

  /** How right a verdict was about a claim that ended in that status. */
  function Rightness(status: nat, v: Verdict): nat {
    if status == 3 || status == 4 then
      match v case Pass => 3 case Inconclusive => 2 case Flag => 1 case Fail => 0
    else
      match v case Pass => 0 case Inconclusive => 1 case Flag => (if status == 5 then 3 else 2) case Fail => if status == 5 then 2 else 3
  }

  /** A submission that counts towards its agent's calibration. */
  predicate Counted(claims: seq<Claim>, exclude: Option<Text>, s: Submission) {
    s.agent != "" && s.claim != "" && DecidedStatus(claims, exclude, s.claim).Some?
  }

  /** On a decided claim the righter verdict contributes more, strictly. */
  lemma ContributionFollowsRightness(claims: seq<Claim>, exclude: Option<Text>, a: Submission, b: Submission)
    requires Counted(claims, exclude, a) && b == a.(verdict := b.verdict)
    ensures var outcomes, st := Outcomes(claims, exclude), DecidedStatus(claims, exclude, a.claim).value;
      && Contribution(outcomes, a).Some? && Contribution(outcomes, b).Some?
      && (Contribution(outcomes, a).value < Contribution(outcomes, b).value <==> Rightness(st, a.verdict) < Rightness(st, b.verdict))
  {
    hide Outcomes, DecidedStatus;
    OutcomesAre(claims, exclude, a.claim);
  }

  lemma CountedExactly(claims: seq<Claim>, exclude: Option<Text>, s: Submission)
    ensures Contribution(Outcomes(claims, exclude), s).Some? <==> Counted(claims, exclude, s)
  {
    hide Outcomes, DecidedStatus;
    OutcomesAre(claims, exclude, s.claim);
  }

  /** `t` is `s` with a verdict on the same claim that was at least as right. */
  predicate NoLessRight(claims: seq<Claim>, exclude: Option<Text>, s: Submission, t: Submission) {
    && t == s.(verdict := t.verdict)
    && var st := DecidedStatus(claims, exclude, s.claim);
       st.Some? ==> Rightness(st.value, s.verdict) <= Rightness(st.value, t.verdict)
  }

  lemma {:induction false} ContributionsRise(claims: seq<Claim>, exclude: Option<Text>, xs: seq<Submission>, ys: seq<Submission>, agent: Text)
    requires |xs| == |ys| && forall i :: 0 <= i < |xs| ==> NoLessRight(claims, exclude, xs[i], ys[i])
    ensures var p, q := Contributions(Outcomes(claims, exclude), xs, agent), Contributions(Outcomes(claims, exclude), ys, agent);
      |p| == |q| && forall i :: 0 <= i < |p| ==> p[i] <= q[i]
  {
    hide Outcomes, Contribution, DecidedStatus, Rightness;
    if xs != [] {
      var x, y := xs[|xs| - 1], ys[|ys| - 1];
      assert NoLessRight(claims, exclude, x, y);
      ContributionsRise(claims, exclude, xs[..|xs| - 1], ys[..|ys| - 1], agent);
      CountedExactly(claims, exclude, x);
      CountedExactly(claims, exclude, y);
      if Counted(claims, exclude, x) { ContributionFollowsRightness(claims, exclude, y, x); }
    }
  }

  /**
    The weight follows correctness: replacing an agent's verdicts by ones that were at least as
    right about the same claims keeps the number of samples and lowers neither average nor weight.
  */
  lemma WeightFollowsRightness(claims: seq<Claim>, exclude: Option<Text>, xs: seq<Submission>, ys: seq<Submission>, agent: Text)
    requires |xs| == |ys| && forall i :: 0 <= i < |xs| ==> NoLessRight(claims, exclude, xs[i], ys[i])
    ensures var e, f := EntryOf(Contributions(Outcomes(claims, exclude), xs, agent)), EntryOf(Contributions(Outcomes(claims, exclude), ys, agent));
      && e.samples == f.samples && (e.average.Some? <==> f.average.Some?)
      && (e.average.Some? ==> e.average.value <= f.average.value) && e.weightBps <= f.weightBps
  {
    hide Contributions, Outcomes;
    ContributionsRise(claims, exclude, xs, ys, agent);
    var p, q := Contributions(Outcomes(claims, exclude), xs, agent), Contributions(Outcomes(claims, exclude), ys, agent);
    if p != [] {
      AverageMonotone(p, q);
      WeightMonotone(Average(p).value, Average(q).value);
    }
  }

  /** Better calibration never weighs less. */
  lemma WeightMonotone(a: int, b: int)
    requires a <= b
    ensures CalibrationWeight(Some(a)) <= CalibrationWeight(Some(b))
  {
    RoundDivMonotone(4_000 * 10_000 + a * 6_000, 4_000 * 10_000 + b * 6_000, 10_000);
  }

  /** The counted submissions of an agent. */
  function CountedOf(claims: seq<Claim>, exclude: Option<Text>, subs: seq<Submission>, agent: Text): nat {
    if subs == [] then 0
    else
      CountedOf(claims, exclude, subs[..|subs| - 1], agent)
      + if Counted(claims, exclude, subs[|subs| - 1]) && subs[|subs| - 1].agent == agent then 1 else 0
  }

  /** One sample for each submission that names the agent and a decided claim other than the excluded one. */
  lemma {:induction false} SamplesAre(claims: seq<Claim>, exclude: Option<Text>, subs: seq<Submission>, agent: Text)
    ensures EntryOf(Contributions(Outcomes(claims, exclude), subs, agent)).samples == CountedOf(claims, exclude, subs, agent)
  {
    hide Outcomes, Contribution, Counted, Average, CalibrationWeight;
    if subs != [] {
      SamplesAre(claims, exclude, subs[..|subs| - 1], agent);
      CountedExactly(claims, exclude, subs[|subs| - 1]);
    }
  }

  /** What one verdict on a claim that ended in status 4 is worth. */
  function Worth(v: Verdict): int {
    match v case Pass => 9_500 case Inconclusive => 6_000 case Flag => 3_000 case Fail => 2_500
  }

  /** An agent with one verdict, on a claim that ended in status 4: 97, 76, 58 or 55 per cent of the full weight. */
  lemma OneVerdict(id: Text, s: Submission)
    requires s.agent != "" && id != "" && s.claim == id
    ensures var e := EntryOf(Contributions(Outcomes([Claim(id, 4)], None), [s], s.agent));
      e == Entry(1, Some(Worth(s.verdict)), match s.verdict case Pass => 9_700 case Inconclusive => 7_600 case Flag => 5_800 case Fail => 5_500)
  {
    hide Outcomes, Average, CalibrationWeight;
    assert Outcomes([Claim(id, 4)], None) == map[id := 9_000] by { OneOutcome(id); }
    assert [s][..0] == [];
    assert Contributions(map[id := 9_000], [], s.agent) == [];
    assert Contributions(map[id := 9_000], [s], s.agent) == [Worth(s.verdict)];
    OneAverage(Worth(s.verdict));
    WeightsOf();
  }

  lemma OneOutcome(id: Text)
    ensures Outcomes([Claim(id, 4)], None) == map[id := 9_000]
  {
    assert [Claim(id, 4)][..0] == [] && Outcomes([], None) == map[];
  }

  lemma OneAverage(x: int)
    requires 0 <= x <= 10_000
    ensures Average([x]) == Some(x)
  {
    assert [x][..0] == [] && Sum([]) == 0 && Sum([x]) == x;
    RoundDivOfMultiple(x, 1);
  }

  lemma WeightsOf()
    ensures CalibrationWeight(Some(9_500)) == 9_700 && CalibrationWeight(Some(6_000)) == 7_600
    ensures CalibrationWeight(Some(3_000)) == 5_800 && CalibrationWeight(Some(2_500)) == 5_500
  {
  }

  // ----- aggregation -----

  /** The weight table the aggregation looks up; an agent without history weighs 10000. */
  function WeightOf(history: map<Text, Entry>, agent: Text): int {
    if agent != "" && agent in history then history[agent].weightBps else 10_000
  }

  function EffectiveWeight(history: map<Text, Entry>, s: Submission): int {
    Max(1_000, RoundDiv(Max(1_000, s.confidenceBps) * WeightOf(history, s.agent), 10_000))
  }

  function Evidence(subs: seq<Submission>, dimension: Dimension): (r: seq<Submission>)
    ensures forall s :: s in r <==> s in subs && dimension in s.dimensions
  {
    if subs == [] then []
    else
      var s := subs[|subs| - 1];
      assert subs == subs[..|subs| - 1] + [s];
      Evidence(subs[..|subs| - 1], dimension) + if dimension in s.dimensions then [s] else []
  }

  function WeightedSum(history: map<Text, Entry>, es: seq<Submission>, dimension: Dimension): int
    requires forall s :: s in es ==> dimension in s.dimensions
  {
    if es == [] then 0
    else WeightedSum(history, es[..|es| - 1], dimension)
         + es[|es| - 1].dimensions[dimension] * EffectiveWeight(history, es[|es| - 1])
  }

  function TotalWeight(history: map<Text, Entry>, es: seq<Submission>): (r: int)
    ensures r >= 1_000 * |es|
  {
    if es == [] then 0 else TotalWeight(history, es[..|es| - 1]) + EffectiveWeight(history, es[|es| - 1])
  }

  /** `aggregateSubmittedDimension`. */
  function AggregateDimension(history: map<Text, Entry>, subs: seq<Submission>, dimension: Dimension): Option<int> {
    var es := Evidence(subs, dimension);
    if es == [] then None
    else Some(ClampBps(RoundDiv(WeightedSum(history, es, dimension), TotalWeight(history, es))))
  }

  /** Weights as `buildAgentCalibrationHistory` can produce them. */
  predicate Calibrated(history: map<Text, Entry>) {
    forall a :: a in history ==> 5_200 <= history[a].weightBps <= 10_000
  }

  /** Confidence as it is stored: clamped to basis points. */
  predicate StoredConfidence(s: Submission) {
    0 <= s.confidenceBps <= 10_000
  }

  /** Every effective weight lies between 1000 and 10000. */
  lemma EffectiveWeightBounds(history: map<Text, Entry>, s: Submission)
    requires Calibrated(history) && StoredConfidence(s)
    ensures 1_000 <= EffectiveWeight(history, s) <= 10_000
  {
    var c, w := Max(1_000, s.confidenceBps), WeightOf(history, s.agent);
    assert 0 <= c * w <= 10_000 * 10_000 by { Product(c, w); }
    RoundDivBetween(c * w, 10_000, 0, 10_000);
  }

  lemma Product(c: int, w: int)
    requires 0 <= c <= 10_000 && 0 <= w <= 10_000
    ensures 0 <= c * w <= 10_000 * 10_000
  {
    assert c * w <= 10_000 * w;
  }

  lemma {:induction false} WeightedSumBetween(history: map<Text, Entry>, es: seq<Submission>, dimension: Dimension, lo: int, hi: int)
    requires forall s :: s in es ==> dimension in s.dimensions && lo <= s.dimensions[dimension] <= hi
    ensures lo * TotalWeight(history, es) <= WeightedSum(history, es, dimension) <= hi * TotalWeight(history, es)
  {
    hide EffectiveWeight;
    if es != [] {
      var init, s := es[..|es| - 1], es[|es| - 1];
      WeightedSumBetween(history, init, dimension, lo, hi);
      assert s in es;
      PositiveWeight(history, s);
      Scale(lo, s.dimensions[dimension], hi, EffectiveWeight(history, s));
      Distribute(lo, TotalWeight(history, init), EffectiveWeight(history, s));
      Distribute(hi, TotalWeight(history, init), EffectiveWeight(history, s));
    }
  }

  lemma Distribute(a: int, x: int, y: int)
    ensures a * (x + y) == a * x + a * y
  {
  }

  lemma PositiveWeight(history: map<Text, Entry>, s: Submission)
    ensures EffectiveWeight(history, s) >= 1_000
  {
  }

  lemma Scale(lo: int, x: int, hi: int, w: int)
    requires lo <= x <= hi && w >= 0
    ensures lo * w <= x * w <= hi * w
  {
  }

  /** The weighted mean lies between the smallest and the largest submitted score. */
  lemma MeanBetween(history: map<Text, Entry>, subs: seq<Submission>, dimension: Dimension, lo: int, hi: int)
    requires 0 <= lo <= hi <= 10_000
    requires forall s :: s in subs && dimension in s.dimensions ==> lo <= s.dimensions[dimension] <= hi
    ensures AggregateDimension(history, subs, dimension).None? <==> forall s :: s in subs ==> dimension !in s.dimensions
    ensures AggregateDimension(history, subs, dimension).Some? ==> lo <= AggregateDimension(history, subs, dimension).value <= hi
  {
    hide EffectiveWeight;
    var es := Evidence(subs, dimension);
    if es == [] {
      forall s | s in subs ensures dimension !in s.dimensions { assert s !in es; }
    } else {
      assert es[0] in es;
      WeightedSumBetween(history, es, dimension, lo, hi);
      RoundDivBetween(WeightedSum(history, es, dimension), TotalWeight(history, es), lo, hi);
    }
  }

  // ----- monotonicity in the submitted scores -----

  /** The same submission but for its scores, and the score of dimension `k`, if it has one, is not lowered. */
  predicate Lifted(a: Submission, b: Submission, k: Dimension) {
    && b == a.(dimensions := b.dimensions)
    && (k in a.dimensions <==> k in b.dimensions)
    && (k in a.dimensions ==> a.dimensions[k] <= b.dimensions[k])
  }

  ghost predicate AllLifted(xs: seq<Submission>, ys: seq<Submission>, k: Dimension) {
    |xs| == |ys| && forall i :: 0 <= i < |xs| ==> Lifted(xs[i], ys[i], k)
  }

  lemma {:induction false} EvidenceLifted(xs: seq<Submission>, ys: seq<Submission>, k: Dimension)
    requires AllLifted(xs, ys, k)
    ensures AllLifted(Evidence(xs, k), Evidence(ys, k), k)
  {
    if xs != [] {
      assert Lifted(xs[|xs| - 1], ys[|ys| - 1], k);
      EvidenceLifted(xs[..|xs| - 1], ys[..|ys| - 1], k);
    }
  }

  lemma {:induction false} SumsLifted(history: map<Text, Entry>, xs: seq<Submission>, ys: seq<Submission>, k: Dimension)
    requires AllLifted(xs, ys, k) && forall s :: s in xs || s in ys ==> k in s.dimensions
    ensures TotalWeight(history, xs) == TotalWeight(history, ys)
    ensures WeightedSum(history, xs, k) <= WeightedSum(history, ys, k)
  {
    hide RoundDiv;
    if xs != [] {
      var x, y := xs[|xs| - 1], ys[|ys| - 1];
      assert Lifted(x, y, k) && x in xs && y in ys;
      SumsLifted(history, xs[..|xs| - 1], ys[..|ys| - 1], k);
      PositiveWeight(history, x);
      Scale(x.dimensions[k], y.dimensions[k], y.dimensions[k], EffectiveWeight(history, x));
    }
  }

  /** Raising submitted scores never lowers the weighted mean. */
  lemma AggregateLifted(history: map<Text, Entry>, xs: seq<Submission>, ys: seq<Submission>, k: Dimension)
    requires AllLifted(xs, ys, k)
    ensures var a, b := AggregateDimension(history, xs, k), AggregateDimension(history, ys, k);
      a.Some? == b.Some? && (a.Some? ==> a.value <= b.value)
  {
    hide EffectiveWeight;
    EvidenceLifted(xs, ys, k);
    var es, fs := Evidence(xs, k), Evidence(ys, k);
    if es != [] {
      SumsLifted(history, es, fs, k);
      RoundDivMonotone(WeightedSum(history, es, k), WeightedSum(history, fs, k), TotalWeight(history, es));
    }
  }

  // ----- independence of the current claim -----

  /** The same claims except for the rows of one claim. */
  ghost predicate SameBut(a: seq<Claim>, b: seq<Claim>, id: Text) {
    |a| == |b| && forall i :: 0 <= i < |a| ==> a[i] == b[i] || (a[i].id == id && b[i].id == id)
  }

  lemma {:induction false} OutcomesIgnore(a: seq<Claim>, b: seq<Claim>, id: Text)
    requires SameBut(a, b, id)
    ensures Outcomes(a, Some(id)) == Outcomes(b, Some(id)) && id !in Outcomes(a, Some(id))
  {
    if a != [] { OutcomesIgnore(a[..|a| - 1], b[..|b| - 1], id); }
  }

  /** No weight and no aggregate changes with the status of the claim under review. */
  lemma OwnStatusIrrelevant(a: seq<Claim>, b: seq<Claim>, id: Text, past: seq<Submission>, agent: Text)
    requires SameBut(a, b, id)
    ensures EntryOf(Contributions(Outcomes(a, Some(id)), past, agent)) == EntryOf(Contributions(Outcomes(b, Some(id)), past, agent))
  {
    OutcomesIgnore(a, b, id);
  }

  /** The history as a value: what the method above builds. */
  ghost predicate IsHistory(h: map<Text, Entry>, claims: seq<Claim>, past: seq<Submission>, exclude: Option<Text>) {
    && (forall a :: a in h <==> Contributions(Outcomes(claims, exclude), past, a) != [])
    && (forall a :: a in h ==> h[a] == EntryOf(Contributions(Outcomes(claims, exclude), past, a)))
  }

  lemma AggregateIgnoresOwnStatus(h: map<Text, Entry>, k: map<Text, Entry>, a: seq<Claim>, b: seq<Claim>, id: Text,
                                  past: seq<Submission>, subs: seq<Submission>, dimension: Dimension)
    requires SameBut(a, b, id) && IsHistory(h, a, past, Some(id)) && IsHistory(k, b, past, Some(id))
    ensures Calibrated(h) && AggregateDimension(h, subs, dimension) == AggregateDimension(k, subs, dimension)
  {
    OutcomesIgnore(a, b, id);
    assert h.Keys == k.Keys;
    assert h == k;
    forall x | x in h ensures 5_200 <= h[x].weightBps <= 10_000 { CalibratedWeight(a, Some(id), past, x); }
  }
}
