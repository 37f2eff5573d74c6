/**
  Readiness, support and certification of a claim (src/review/aggregation.ts,
  `computeCertificationReadiness`, `computeSupportEstimate`, `buildCertifications` and the part of
  `buildClaimReviewState` that fills the readiness dimension).
*/
module Certification {
  import opened Common
  import opened Rounding

  type Score = Option<int>

  datatype Dimensions = Dimensions(
    artifactCompleteness: Score, artifactIntegrity: Score, methodConsistency: Score,
    statisticalSanity: Score, reproducibilityReadiness: Score, replicationSupport: Score,
    reviewCoverage: Score, reviewDiversity: Score, reviewFreshness: Score, forecastSupport: Score,
    challengePressure: Score, contradictionPressure: Score, certificationReadiness: Score)

  function OrZero(s: Score): int {
    if s.Some? then s.value else 0
  }

  /** The scores that are numbers, in order. */
  function Present(scores: seq<Score>): seq<int> {
    if scores == [] then []
    else Present(scores[..|scores| - 1]) + if scores[|scores| - 1].Some? then [scores[|scores| - 1].value] else []
  }

  function Positives(d: Dimensions): seq<Score> {
    [d.artifactCompleteness, d.artifactIntegrity, d.methodConsistency, d.statisticalSanity,
     d.reproducibilityReadiness, d.replicationSupport, d.reviewCoverage, d.reviewDiversity,
     d.reviewFreshness, d.forecastSupport]
  }

  function SupportSignals(d: Dimensions): seq<Score> {
    [d.artifactCompleteness, d.artifactIntegrity, d.methodConsistency, d.statisticalSanity,
     d.reproducibilityReadiness, d.replicationSupport, d.forecastSupport]
  }

  /** `computeCertificationReadiness`: the rounded mean less a third of the two pressures. */
  function Readiness(d: Dimensions): int {
    var xs := Present(Positives(d));
    if xs == [] then 0
    else ClampBps(RoundDiv(3 * OrZero(Average(xs)) - (OrZero(d.challengePressure) + OrZero(d.contradictionPressure)), 3))
  }

  /** `computeSupportEstimate`: the rounded mean less half of the rounded mean pressure. */
  function SupportEstimate(d: Dimensions): int {
    var xs := Present(SupportSignals(d));
    if xs == [] then 0
    else
      var penalty := OrZero(Average([OrZero(d.challengePressure), OrZero(d.contradictionPressure)]));
      ClampBps(RoundDiv(2 * OrZero(Average(xs)) - penalty, 2))
  }

  /** A submitted readiness wins over the computed one. */
  function FillReadiness(d: Dimensions): Dimensions {
    d.(certificationReadiness := Some(if d.certificationReadiness.Some? then d.certificationReadiness.value else Readiness(d)))
  }

  datatype Status = Blocked | Pending | Clear | Contested | Provisional | Certified

  datatype Certificate = Certificate(key: string, scoreBps: Score, status: Status)
  datatype Summary = Summary(tasks: nat, submissions: nat, distinctAgents: nat)

  predicate IsContested(d: Dimensions) {
    OrZero(d.challengePressure) >= 6_000 || OrZero(d.contradictionPressure) >= 6_000
  }

  /** The status of the overall certification. */
  function Overall(d: Dimensions, distinctAgents: nat): Status {
    var readiness := OrZero(d.certificationReadiness);
    var provisional := readiness >= 7_500 && !IsContested(d)
                       && OrZero(d.reviewCoverage) >= 6_000 && OrZero(d.reviewDiversity) >= 4_500;
    if IsContested(d) then Contested
    else if provisional && readiness >= 8_500 && distinctAgents >= 2 then Certified
    else if provisional then Provisional
    else Pending
  }

  /** `buildCertifications`: pushes the six certificates in order. */
  method BuildCertifications(d: Dimensions, s: Summary, replications: nat) returns (certificates: seq<Certificate>)
    ensures |certificates| == 6
    ensures certificates[0].status == Certified <==>
      OrZero(d.artifactCompleteness) >= 8_000 && OrZero(d.artifactIntegrity) >= 8_000
    ensures certificates[1].status == Certified <==>
      OrZero(d.methodConsistency) >= 7_000 && OrZero(d.statisticalSanity) >= 7_000
    ensures certificates[2].status == Certified <==>
      certificates[0].status == Certified && OrZero(d.reproducibilityReadiness) >= 7_500
    ensures certificates[3].status == Certified <==> replications > 0 && OrZero(d.replicationSupport) >= 7_000
    ensures forall i :: i in {0, 2} && certificates[i].status != Certified ==>
      certificates[i].status == if s.tasks > 0 then Pending else Blocked
    ensures certificates[1].status != Certified ==> certificates[1].status == if s.submissions > 0 then Pending else Blocked
    ensures certificates[3].status != Certified ==> certificates[3].status == if replications > 0 then Pending else Blocked
    ensures certificates[4].status == if IsContested(d) then Contested else Clear
    ensures certificates[5].status == Overall(d, s.distinctAgents) && certificates[5].scoreBps == d.certificationReadiness
    ensures certificates[5].status == Contested <==> certificates[4].status == Contested
    ensures certificates[0].scoreBps == Average([OrZero(d.artifactCompleteness), OrZero(d.artifactIntegrity)])
    ensures certificates[1].scoreBps == Average([OrZero(d.methodConsistency), OrZero(d.statisticalSanity)])
    ensures certificates[2].scoreBps == d.reproducibilityReadiness && certificates[3].scoreBps == d.replicationSupport
    ensures certificates[4].scoreBps == Average([OrZero(d.challengePressure), OrZero(d.contradictionPressure)])
  {
    hide Average;
    certificates := [];
    var artifactReady := OrZero(d.artifactCompleteness) >= 8_000 && OrZero(d.artifactIntegrity) >= 8_000;
    certificates := certificates + [Certificate("artifact_complete", Average([OrZero(d.artifactCompleteness), OrZero(d.artifactIntegrity)]),
      if artifactReady then Certified else if s.tasks > 0 then Pending else Blocked)];
    var methodChecked := OrZero(d.methodConsistency) >= 7_000 && OrZero(d.statisticalSanity) >= 7_000;
    certificates := certificates + [Certificate("method_checked", Average([OrZero(d.methodConsistency), OrZero(d.statisticalSanity)]),
      if methodChecked then Certified else if s.submissions > 0 then Pending else Blocked)];
    var reproReady := artifactReady && OrZero(d.reproducibilityReadiness) >= 7_500;
    certificates := certificates + [Certificate("repro_ready", d.reproducibilityReadiness,
      if reproReady then Certified else if s.tasks > 0 then Pending else Blocked)];
    var replicated := replications > 0 && OrZero(d.replicationSupport) >= 7_000;
    certificates := certificates + [Certificate("independently_replicated", d.replicationSupport,
      if replicated then Certified else if replications > 0 then Pending else Blocked)];
    var contested := OrZero(d.challengePressure) >= 6_000 || OrZero(d.contradictionPressure) >= 6_000;
    certificates := certificates + [Certificate("contested", Average([OrZero(d.challengePressure), OrZero(d.contradictionPressure)]),
      if contested then Contested else Clear)];
    var readiness := OrZero(d.certificationReadiness);
    var provisional := readiness >= 7_500 && !contested && OrZero(d.reviewCoverage) >= 6_000 && OrZero(d.reviewDiversity) >= 4_500;
    var fullyCertified := provisional && readiness >= 8_500 && s.distinctAgents >= 2;
    certificates := certificates + [Certificate("provisionally_certified", d.certificationReadiness,
      if contested then Contested else if fullyCertified then Certified else if provisional then Provisional else Pending)];
  }

  // ----- monotonicity -----

  /** Raised, but not newly present: a score that was null stays null. */
  predicate Raised(a: Score, b: Score) {
    a.Some? == b.Some? && (a.Some? ==> a.value <= b.value)
  }

  ghost predicate AllRaised(as_: seq<Score>, bs: seq<Score>) {
    |as_| == |bs| && forall i :: 0 <= i < |as_| ==> Raised(as_[i], bs[i])
  }

  /** `e` is at least as good: every positive score raised, no pressure raised. */
  ghost predicate Better(d: Dimensions, e: Dimensions) {
    && AllRaised(Positives(d), Positives(e))
    && Raised(d.certificationReadiness, e.certificationReadiness)
    && OrZero(e.challengePressure) <= OrZero(d.challengePressure)
    && OrZero(e.contradictionPressure) <= OrZero(d.contradictionPressure)
  }

  lemma {:induction false} PresentRaised(a: seq<Score>, b: seq<Score>)
    requires AllRaised(a, b)
    ensures |Present(a)| == |Present(b)|
    ensures forall i :: 0 <= i < |Present(a)| ==> Present(a)[i] <= Present(b)[i]
  {
    if a != [] {
      assert Raised(a[|a| - 1], b[|a| - 1]);
      PresentRaised(a[..|a| - 1], b[..|b| - 1]);
    }
  }

  lemma AverageRaised(a: seq<Score>, b: seq<Score>)
    requires AllRaised(a, b)
    ensures (Present(a) == []) == (Present(b) == [])
    ensures OrZero(Average(Present(a))) <= OrZero(Average(Present(b)))
  {
    PresentRaised(a, b);
    if Present(a) != [] { AverageMonotone(Present(a), Present(b)); }
  }

  lemma ReadinessMonotone(d: Dimensions, e: Dimensions)
    requires Better(d, e)
    ensures Readiness(d) <= Readiness(e)
  {
    hide Average, RoundDiv, Present;
    AverageRaised(Positives(d), Positives(e));
    RoundDivMonotone(3 * OrZero(Average(Present(Positives(d)))) - (OrZero(d.challengePressure) + OrZero(d.contradictionPressure)),
                     3 * OrZero(Average(Present(Positives(e)))) - (OrZero(e.challengePressure) + OrZero(e.contradictionPressure)), 3);
  }

  lemma SupportMonotone(d: Dimensions, e: Dimensions)
    requires Better(d, e)
    ensures SupportEstimate(d) <= SupportEstimate(e)
  {
    hide Average, RoundDiv, Present, Positives;
    var p, q := [OrZero(d.challengePressure), OrZero(d.contradictionPressure)], [OrZero(e.challengePressure), OrZero(e.contradictionPressure)];
    SignalsRaised(d, e);
    AverageRaised(SupportSignals(d), SupportSignals(e));
    AverageMonotone(q, p);
    PairAverage(p[0], p[1]);
    PairAverage(q[0], q[1]);
    RoundDivMonotone(2 * OrZero(Average(Present(SupportSignals(d)))) - OrZero(Average(p)),
                     2 * OrZero(Average(Present(SupportSignals(e)))) - OrZero(Average(q)), 2);
  }

  lemma PairAverage(a: int, b: int)
    ensures Average([a, b]).Some?
  {
  }

  lemma SignalsRaised(d: Dimensions, e: Dimensions)
    requires AllRaised(Positives(d), Positives(e))
    ensures AllRaised(SupportSignals(d), SupportSignals(e))
  {
    var a, b := Positives(d), Positives(e);
    assert Raised(a[0], b[0]) && Raised(a[1], b[1]) && Raised(a[2], b[2]) && Raised(a[3], b[3]);
    assert Raised(a[4], b[4]) && Raised(a[5], b[5]) && Raised(a[9], b[9]);
  }

  /** contested < pending < provisional < certified. */
  function Rank(s: Status): int {
    match s
    case Contested => 0
    case Pending => 1
    case Provisional => 2
    case Certified => 3
    case _ => 1
  }

  /**
    Certification is monotone through all rounding and clamping: raising positive scores, lowering
    pressures and adding reviewers never lowers the support estimate, the readiness or the rank.
  */
  lemma CertificationMonotone(d: Dimensions, e: Dimensions, agents: nat, more: nat)
    requires Better(d, e) && agents <= more
    ensures SupportEstimate(d) <= SupportEstimate(e) && Readiness(d) <= Readiness(e)
    ensures Rank(Overall(FillReadiness(d), agents)) <= Rank(Overall(FillReadiness(e), more))
  {
    hide Readiness, SupportEstimate;
    ReadinessMonotone(d, e);
    SupportMonotone(d, e);
    var a, b := Positives(d), Positives(e);
    assert Raised(a[6], b[6]) && Raised(a[7], b[7]);
  }

  // ----- when a change of scores lowers the outcome -----

  /** Every score that is there is in basis points. */
  predicate InRange(s: Score) {
    s.Some? ==> 0 <= s.value <= 10_000
  }

  ghost predicate AllInRange(scores: seq<Score>) {
    forall i :: 0 <= i < |scores| ==> InRange(scores[i])
  }

  lemma {:induction false} PresentInRange(scores: seq<Score>)
    requires AllInRange(scores)
    ensures forall i :: 0 <= i < |Present(scores)| ==> 0 <= Present(scores)[i] <= 10_000
  {
    if scores != [] {
      assert InRange(scores[|scores| - 1]);
      PresentInRange(scores[..|scores| - 1]);
    }
  }

  /** Basis points have a mean in basis points, so its clamp does nothing. */
  lemma UnclampedMean(xs: seq<int>)
    requires xs != [] && forall i :: 0 <= i < |xs| ==> 0 <= xs[i] <= 10_000
    ensures Average(xs) == Some(RoundDiv(Sum(xs), |xs|)) && 0 <= RoundDiv(Sum(xs), |xs|) <= 10_000
  {
    SumBetween(xs, 0, 10_000);
    RoundDivBetween(Sum(xs), |xs|, 0, 10_000);
  }

  lemma AtLeast(s: int, d: int, b: int)
    requires d > 0
    ensures RoundDiv(s, d) >= b <==> 2 * b * d - d <= 2 * s
  {
    hide RoundDiv;
    var r := RoundDiv(s, d);
    RoundDivExact(s, d, r);
    if r < b { Scaled(r + 1, b, 2 * d); } else { Scaled(b, r, 2 * d); }
  }

  /** A whole number comes out of the rounding. */
  lemma ShiftedRound(b: int, p: int, d: int)
    requires d > 0
    ensures RoundDiv(d * b - p, d) == b + RoundDiv(-p, d)
  {
    hide RoundDiv;
    var k := RoundDiv(-p, d);
    RoundDivExact(-p, d, k);
    RoundDivExact(d * b - p, d, b + k);
    Split(b, k, d);
  }

  lemma Split(b: int, k: int, d: int)
    ensures 2 * (b + k) * d == 2 * b * d + 2 * k * d && 2 * (d * b) == 2 * b * d
  {
  }

  /** The new mean falls below the old one. */
  predicate MeanFalls(xs: seq<int>, ys: seq<int>)
    requires xs != [] && ys != []
  {
    2 * Sum(ys) + |ys| < 2 * |ys| * RoundDiv(Sum(xs), |xs|)
  }

  lemma MeanFallsIff(xs: seq<int>, ys: seq<int>)
    requires xs != [] && ys != []
    ensures MeanFalls(xs, ys) <==> RoundDiv(Sum(ys), |ys|) < RoundDiv(Sum(xs), |xs|)
  {
    BelowIff(Sum(ys), |ys|, RoundDiv(Sum(xs), |xs|));
  }

  lemma BelowIff(s: int, n: int, b: int)
    requires n > 0
    ensures 2 * s + n < 2 * n * b <==> RoundDiv(s, n) < b
  {
    hide RoundDiv;
    AtLeast(s, n, b);
    assert 2 * n * b == 2 * b * n;
  }

  lemma ClampedFall(b: int, c: int, k: int)
    requires 0 <= b <= 10_000 && 0 <= c <= 10_000 && k <= 0
    ensures ClampBps(c + k) < ClampBps(b + k) <==> c < b && ClampBps(b + k) > 0
  {
  }

  lemma NonPositive(p: int, d: int)
    requires d > 0 && p >= 0
    ensures RoundDiv(-p, d) <= 0
  {
    RoundDivMonotone(-p, 0, d);
    RoundDivOfMultiple(0, d);
  }

  /**
    Exactly when a change of scores under unchanged pressures lowers the readiness or the support
    estimate: when it was positive and twice the new sum plus the new count is below twice the new
    count times the old rounded mean. The scores may change in value, appear or disappear, as when
    a first submitted score replaces a fallback.
  */
  lemma ScoreChangeIff(d: Dimensions, e: Dimensions)
    requires AllInRange(Positives(d)) && AllInRange(Positives(e))
    requires d.challengePressure == e.challengePressure && d.contradictionPressure == e.contradictionPressure
    requires InRange(d.challengePressure) && InRange(d.contradictionPressure)
    requires Present(SupportSignals(d)) != [] && Present(SupportSignals(e)) != []
    ensures Present(Positives(d)) != [] && Present(Positives(e)) != []
    ensures Readiness(e) < Readiness(d) <==> Readiness(d) > 0 && MeanFalls(Present(Positives(d)), Present(Positives(e)))
    ensures SupportEstimate(e) < SupportEstimate(d) <==>
      SupportEstimate(d) > 0 && MeanFalls(Present(SupportSignals(d)), Present(SupportSignals(e)))
  {
    SignalsAmongPositives(d);
    SignalsAmongPositives(e);
    ReadinessFallsIff(d, e);
    SupportFallsIff(d, e);
  }

  lemma {:induction false} SomePresent(scores: seq<Score>)
    ensures Present(scores) != [] <==> exists i :: 0 <= i < |scores| && scores[i].Some?
  {
    if scores != [] {
      var init := scores[..|scores| - 1];
      SomePresent(init);
      assert forall i :: 0 <= i < |init| ==> init[i] == scores[i];
      if i :| 0 <= i < |scores| && scores[i].Some? { assert i < |init| ==> init[i].Some?; }
    }
  }

  lemma SignalsAmongPositives(d: Dimensions)
    requires AllInRange(Positives(d)) && Present(SupportSignals(d)) != []
    ensures AllInRange(SupportSignals(d)) && Present(Positives(d)) != []
  {
    var a, b := Positives(d), SupportSignals(d);
    assert b == a[..6] + [a[9]];
    SomePresent(b);
    SomePresent(a);
    var i :| 0 <= i < |b| && b[i].Some?;
    assert if i < 6 then b[i] == a[i] else b[i] == a[9];
    assert forall j :: 0 <= j < 6 ==> b[j] == a[j];
    assert InRange(a[9]);
  }

  lemma ReadinessFallsIff(d: Dimensions, e: Dimensions)
    requires AllInRange(Positives(d)) && AllInRange(Positives(e)) && Present(Positives(d)) != [] && Present(Positives(e)) != []
    requires d.challengePressure == e.challengePressure && d.contradictionPressure == e.contradictionPressure
    requires InRange(d.challengePressure) && InRange(d.contradictionPressure)
    ensures Readiness(e) < Readiness(d) <==> Readiness(d) > 0 && MeanFalls(Present(Positives(d)), Present(Positives(e)))
  {
    hide RoundDiv, Present, Positives, ClampBps, Sum, Average, MeanFalls;
    var xs, ys := Present(Positives(d)), Present(Positives(e));
    var p := OrZero(d.challengePressure) + OrZero(d.contradictionPressure);
    PresentInRange(Positives(d));
    PresentInRange(Positives(e));
    UnclampedMean(xs);
    UnclampedMean(ys);
    ShiftedRound(RoundDiv(Sum(xs), |xs|), p, 3);
    ShiftedRound(RoundDiv(Sum(ys), |ys|), p, 3);
    NonPositive(p, 3);
    ClampedFall(RoundDiv(Sum(xs), |xs|), RoundDiv(Sum(ys), |ys|), RoundDiv(-p, 3));
    MeanFallsIff(xs, ys);
  }

  lemma SupportFallsIff(d: Dimensions, e: Dimensions)
    requires AllInRange(SupportSignals(d)) && AllInRange(SupportSignals(e))
    requires Present(SupportSignals(d)) != [] && Present(SupportSignals(e)) != []
    requires d.challengePressure == e.challengePressure && d.contradictionPressure == e.contradictionPressure
    requires InRange(d.challengePressure) && InRange(d.contradictionPressure)
    ensures SupportEstimate(e) < SupportEstimate(d) <==>
      SupportEstimate(d) > 0 && MeanFalls(Present(SupportSignals(d)), Present(SupportSignals(e)))
  {
    hide RoundDiv, Present, SupportSignals, ClampBps, Sum, Average, MeanFalls;
    var xs, ys := Present(SupportSignals(d)), Present(SupportSignals(e));
    var pair := [OrZero(d.challengePressure), OrZero(d.contradictionPressure)];
    var p := OrZero(Average(pair));
    PresentInRange(SupportSignals(d));
    PresentInRange(SupportSignals(e));
    UnclampedMean(xs);
    UnclampedMean(ys);
    UnclampedMean(pair);
    ShiftedRound(RoundDiv(Sum(xs), |xs|), p, 2);
    ShiftedRound(RoundDiv(Sum(ys), |ys|), p, 2);
    NonPositive(p, 2);
    ClampedFall(RoundDiv(Sum(xs), |xs|), RoundDiv(Sum(ys), |ys|), RoundDiv(-p, 2));
    MeanFallsIff(xs, ys);
  }

  lemma SumOfAppend(xs: seq<int>, v: int)
    ensures Sum(xs + [v]) == Sum(xs) + v
  {
    assert (xs + [v])[..|xs|] == xs;
  }

  lemma {:induction false} PresentWithNew(scores: seq<Score>, i: nat, v: int)
    requires i < |scores| && scores[i].None?
    ensures var ys := Present(scores[i := Some(v)]);
      |ys| == |Present(scores)| + 1 && Sum(ys) == Sum(Present(scores)) + v
  {
    hide Sum;
    var last := |scores| - 1;
    var next := scores[i := Some(v)];
    if i == last {
      assert next[..last] == scores[..last] && Present(scores) == Present(scores[..last]);
      SumOfAppend(Present(scores), v);
    } else {
      PresentWithNew(scores[..last], i, v);
      assert next[..last] == scores[..last][i := Some(v)];
      if scores[last].Some? {
        SumOfAppend(Present(scores[..last]), scores[last].value);
        SumOfAppend(Present(next[..last]), scores[last].value);
      } else {
        assert Present(scores) == Present(scores[..last]) && Present(next) == Present(next[..last]);
      }
    }
  }

  lemma NewMeanIff(scores: seq<Score>, i: nat, v: int)
    requires i < |scores| && scores[i].None? && Present(scores) != []
    ensures Present(scores[i := Some(v)]) != []
    ensures MeanFalls(Present(scores), Present(scores[i := Some(v)])) <==> BelowMean(Present(scores), v)
  {
    PresentWithNew(scores, i, v);
  }

  /** With n scores of sum S and rounded mean b: `v` brings the mean below b. */
  predicate BelowMean(xs: seq<int>, v: int)
    requires xs != []
  {
    var n, S := |xs|, Sum(xs);
    2 * (S + v) + (n + 1) < 2 * (n + 1) * RoundDiv(S, n)
  }

  /** The support signals are the positive scores 0 to 5 and 9. */
  predicate IsSignal(i: nat) {
    i < 6 || i == 9
  }

  /**
    In particular, exactly when a new score `v` for the `i`-th positive dimension, where there was
    none, lowers the readiness or the support estimate.
  */
  lemma NewScoreIff(d: Dimensions, e: Dimensions, i: nat, v: int)
    requires i < 10 && Positives(d)[i].None? && Positives(e) == Positives(d)[i := Some(v)]
    requires AllInRange(Positives(d)) && 0 <= v <= 10_000
    requires d.challengePressure == e.challengePressure && d.contradictionPressure == e.contradictionPressure
    requires InRange(d.challengePressure) && InRange(d.contradictionPressure)
    requires Present(SupportSignals(d)) != []
    ensures Present(Positives(d)) != []
    ensures Readiness(e) < Readiness(d) <==> Readiness(d) > 0 && BelowMean(Present(Positives(d)), v)
    ensures SupportEstimate(e) < SupportEstimate(d) <==>
      IsSignal(i) && SupportEstimate(d) > 0 && BelowMean(Present(SupportSignals(d)), v)
  {
    hide Readiness, SupportEstimate, Present, MeanFalls, BelowMean;
    var j := if i == 9 then 6 else i;
    SignalsChange(d, e, i, v);
    if IsSignal(i) { NewMeanIff(SupportSignals(d), j, v); }
    SignalsAmongPositives(d);
    NewMeanIff(Positives(d), i, v);
    forall k | 0 <= k < |Positives(e)| ensures InRange(Positives(e)[k]) { assert InRange(Positives(d)[k]); }
    ScoreChangeIff(d, e);
    if !IsSignal(i) { SupportBySignals(d, e); }
  }

  lemma SignalsChange(d: Dimensions, e: Dimensions, i: nat, v: int)
    requires i < 10 && Positives(e) == Positives(d)[i := Some(v)]
    ensures IsSignal(i) ==> var j := if i == 9 then 6 else i;
      SupportSignals(e) == SupportSignals(d)[j := Some(v)] && SupportSignals(d)[j] == Positives(d)[i]
    ensures !IsSignal(i) ==> SupportSignals(e) == SupportSignals(d)
  {
    var a, b := Positives(d), Positives(e);
    assert SupportSignals(d) == a[..6] + [a[9]] && SupportSignals(e) == b[..6] + [b[9]];
  }

  lemma SupportBySignals(d: Dimensions, e: Dimensions)
    requires SupportSignals(d) == SupportSignals(e)
    requires d.challengePressure == e.challengePressure && d.contradictionPressure == e.contradictionPressure
    ensures SupportEstimate(d) == SupportEstimate(e)
  {
    hide Present, Average;
  }
}
