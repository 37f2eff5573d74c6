/**
  What the scores of a claim are in the numbers of its record (src/review/aggregation.ts): the
  weighted mean of the submitted scores, the fallbacks, readiness, support and the overall status.
*/
module ScoreLaws {
  import opened Common
  import opened Rounding
  import opened Certification
  import opened ReviewState
  import C = Calibration

  /** `r` is the integer nearest to n / d, halves going up. */
  predicate Nearest(n: int, d: int, r: int) {
    d > 0 && 2 * r * d - d <= 2 * n < 2 * r * d + d
  }

  function Bps(r: int): int {
    if r < 0 then 0 else if r > 10_000 then 10_000 else r
  }

  lemma RoundsTo(n: int, d: int, r: int)
    requires Nearest(n, d, r)
    ensures RoundDiv(n, d) == r && ClampBps(r) == Bps(r)
  {
    RoundDivExact(n, d, r);
  }

  // ----- the mean of the submitted scores -----

  /**
    The weight of a submission: its confidence times its agent's calibration, each of them in basis
    points, where neither the confidence nor the product counts less than 1000.
  */
  predicate IsWeight(history: map<Text, C.Entry>, s: C.Submission, w: int) {
    var confidence := if s.confidenceBps < 1_000 then 1_000 else s.confidenceBps;
    var calibration := if s.agent != "" && s.agent in history then history[s.agent].weightBps else 10_000;
    w >= 1_000 && (Nearest(confidence * calibration, 10_000, w) || (w == 1_000 && 2 * confidence * calibration < 2_000 * 10_000 - 10_000))
  }

  lemma WeightIs(history: map<Text, C.Entry>, s: C.Submission, w: int)
    requires IsWeight(history, s, w)
    ensures C.EffectiveWeight(history, s) == w
  {
    var p := Max(1_000, s.confidenceBps) * C.WeightOf(history, s.agent);
    RoundDivExact(p, 10_000, RoundDiv(p, 10_000));
    if Nearest(p, 10_000, w) { RoundsTo(p, 10_000, w); }
  }

  /** An agent's calibration counts for three fifths of its weight; without history the weight is full. */
  lemma CalibrationIs(average: int, r: int)
    ensures C.CalibrationWeight(None) == 10_000
    ensures Nearest(20_000 + 3 * average, 5, r) ==> C.CalibrationWeight(Some(average)) == Bps(r)
  {
    if Nearest(20_000 + 3 * average, 5, r) {
      assert Nearest(4_000 * 10_000 + average * 6_000, 10_000, r);
      RoundsTo(4_000 * 10_000 + average * 6_000, 10_000, r);
    }
  }

  /** The sum of the scores for `k` times their weights, and of those weights. */
  function Weighted(subs: seq<C.Submission>, ws: seq<int>, k: C.Dimension): (int, int)
    requires |ws| == |subs|
  {
    if subs == [] then (0, 0)
    else
      var n := |subs| - 1;
      var (num, den) := Weighted(subs[..n], ws[..n], k);
      if k in subs[n].dimensions then (num + subs[n].dimensions[k] * ws[n], den + ws[n]) else (num, den)
  }

  lemma SumsAppend(history: map<Text, C.Entry>, es: seq<C.Submission>, s: C.Submission, k: C.Dimension)
    requires k in s.dimensions && forall e :: e in es ==> k in e.dimensions
    ensures forall e :: e in es + [s] ==> k in e.dimensions
    ensures C.WeightedSum(history, es + [s], k) == C.WeightedSum(history, es, k) + s.dimensions[k] * C.EffectiveWeight(history, s)
    ensures C.TotalWeight(history, es + [s]) == C.TotalWeight(history, es) + C.EffectiveWeight(history, s)
  {
    hide C.EffectiveWeight;
    assert (es + [s])[..|es|] == es;
  }

  lemma EvidenceAppend(subs: seq<C.Submission>, k: C.Dimension)
    requires subs != []
    ensures var last, init := subs[|subs| - 1], C.Evidence(subs[..|subs| - 1], k);
      C.Evidence(subs, k) == if k in last.dimensions then init + [last] else init
  {
  }

  lemma {:induction false} WeightedSums(history: map<Text, C.Entry>, subs: seq<C.Submission>, ws: seq<int>, k: C.Dimension)
    requires |ws| == |subs| && forall i :: 0 <= i < |subs| ==> IsWeight(history, subs[i], ws[i])
    ensures var es := C.Evidence(subs, k);
      Weighted(subs, ws, k) == (C.WeightedSum(history, es, k), C.TotalWeight(history, es))
  {
    hide C.EffectiveWeight, C.Evidence, C.WeightedSum, C.TotalWeight, IsWeight;
    if subs == [] {
      NoEvidence(history, k);
    } else {
      var n := |subs| - 1;
      forall i | 0 <= i < n ensures IsWeight(history, subs[..n][i], ws[..n][i]) { assert IsWeight(history, subs[i], ws[i]); }
      WeightedSums(history, subs[..n], ws[..n], k);
      WeightIs(history, subs[n], ws[n]);
      EvidenceAppend(subs, k);
      if k in subs[n].dimensions { SumsAppend(history, C.Evidence(subs[..n], k), subs[n], k); }
    }
  }

  lemma NoEvidence(history: map<Text, C.Entry>, k: C.Dimension)
    ensures C.Evidence([], k) == [] && C.WeightedSum(history, [], k) == 0 && C.TotalWeight(history, []) == 0
  {
  }

  /** A dimension's score is the mean of the submitted scores under these weights, and none if nobody scored it. */
  lemma AggregateIs(history: map<Text, C.Entry>, subs: seq<C.Submission>, ws: seq<int>, k: C.Dimension, r: int)
    requires |ws| == |subs| && forall i :: 0 <= i < |subs| ==> IsWeight(history, subs[i], ws[i])
    ensures var (num, den) := Weighted(subs, ws, k);
      && (C.AggregateDimension(history, subs, k).None? <==> forall s :: s in subs ==> k !in s.dimensions)
      && (Nearest(num, den, r) ==> C.AggregateDimension(history, subs, k) == Some(Bps(r)))
  {
    hide C.EffectiveWeight, RoundDiv;
    WeightedSums(history, subs, ws, k);
    var es := C.Evidence(subs, k);
    var (num, den) := Weighted(subs, ws, k);
    if es == [] {
      forall s | s in subs ensures k !in s.dimensions { assert s !in es; }
    } else {
      assert es[0] in es;
    }
    if Nearest(num, den, r) { RoundsTo(num, den, r); }
  }

  // ----- submitted scores and fallbacks -----

  /** Each dimension is the mean of its own submitted scores where there are any, and else its own fallback. */
  lemma SubmittedOrFallback(history: map<Text, C.Entry>, x: Facts, rs: seq<Review>)
    ensures var d := Filled(history, x, rs);
      var own := (k: C.Dimension, fallback: Score) => Coalesce(C.AggregateDimension(history, Scores(rs), k), fallback);
      && d.artifactCompleteness == own(C.ArtifactCompleteness, Some(ArtifactCompleteness(x.artifacts)))
      && d.artifactIntegrity == own(C.ArtifactIntegrity, Some(ArtifactIntegrity(x.artifacts)))
      && d.methodConsistency == own(C.MethodConsistency, Some(MethodConsistency(x.artifacts)))
      && d.statisticalSanity == own(C.StatisticalSanity, Some(StatisticalSanity(x.artifacts, x.replications)))
      && d.reproducibilityReadiness == own(C.ReproducibilityReadiness, Some(ReproducibilityReadiness(x.artifacts)))
      && d.replicationSupport == own(C.ReplicationSupport, ReplicationSupport(x.replications))
      && d.reviewCoverage == own(C.ReviewCoverage, Some(ReviewCoverage(x.taskTypes, rs)))
      && d.reviewDiversity == own(C.ReviewDiversity, Some(ReviewDiversity(rs)))
      && d.reviewFreshness == own(C.ReviewFreshness, Some(ReviewFreshness(rs, x.now)))
      && d.forecastSupport == own(C.ForecastSupport, ForecastSupport(x.forecasts))
      && d.challengePressure == own(C.ChallengePressure, Some(ChallengePressure(x.challenges, x.issues)))
      && d.contradictionPressure == own(C.ContradictionPressure, Some(ContradictionPressure(rs, x.issues)))
      && d.certificationReadiness == C.AggregateDimension(history, Scores(rs), C.CertificationReadiness)
  {
    hide C.AggregateDimension, ArtifactCompleteness, ArtifactIntegrity, MethodConsistency, StatisticalSanity, ReproducibilityReadiness,
      ReplicationSupport, ReviewCoverage, ReviewDiversity, ReviewFreshness, ForecastSupport, ChallengePressure, ContradictionPressure, Scores;
  }

  /** The kinds of the artifacts: 1 code, 2 container, 4 notebook, 5 manuscript. */
  function Kinds(a: seq<Artifact>): set<nat> {
    set i | 0 <= i < |a| :: a[i].kind
  }

  lemma HasKindIs(a: seq<Artifact>, kind: nat)
    ensures HasKind(a, kind) <==> kind in Kinds(a)
  {
  }

  /** The five fallbacks that look at the artifacts, by their number and their kinds. */
  lemma ArtifactFallbacks(a: seq<Artifact>, r: seq<Replication>)
    ensures var n, ks := |a|, Kinds(a);
      var runnable := 1 in ks || 4 in ks;
      && (n == 0 ==> ArtifactCompleteness(a) == 0 && ArtifactIntegrity(a) == 0 && MethodConsistency(a) == 0 && ReproducibilityReadiness(a) == 0)
      && (n > 0 ==> ArtifactCompleteness(a) == Bps((match n case 1 => 4_800 case 2 => 6_100 case _ => 7_400)
            + (if 5 in ks then 1_200 else 0) + (if runnable then 1_000 else 0) + if 2 in ks then 700 else 0))
      && (n > 0 ==> MethodConsistency(a) == if 5 !in ks then 4_500 else if runnable then 7_000 else 6_000)
      && (n > 0 ==> ReproducibilityReadiness(a) == (if 1 in ks && (2 in ks || 4 in ks) then 8_500 else if runnable then 7_000 else 4_000))
      && StatisticalSanity(a, r) == (if 5 !in ks then 0 else if |r| > 0 then 6_500 else 5_000)
  {
    HasKindIs(a, 1);
    HasKindIs(a, 2);
    HasKindIs(a, 4);
    HasKindIs(a, 5);
    hide HasKind, Kinds, RoundDiv;
    if a == [] { assert Kinds(a) == {} by { NoKinds(); } }
  }

  lemma NoKinds()
    ensures Kinds([]) == {}
  {
  }

  /** The share of artifacts with a hex digest and a location, rounded. */
  lemma IntegrityIs(a: seq<Artifact>, r: int)
    requires Nearest(10_000 * |set i | 0 <= i < |a| && a[i].hexDigest && a[i].located|, |a|, r)
    ensures ArtifactIntegrity(a) == Bps(r)
  {
    ValidAre(a);
    RoundsTo(10_000 * ValidArtifacts(a), |a|, r);
  }

  lemma {:induction false} ValidAre(a: seq<Artifact>)
    ensures ValidArtifacts(a) == |set i | 0 <= i < |a| && a[i].hexDigest && a[i].located|
  {
    var valid := set i | 0 <= i < |a| && a[i].hexDigest && a[i].located;
    if a == [] {
      assert valid == {};
    } else {
      var n := |a| - 1;
      ValidAre(a[..n]);
      var prior := set i | 0 <= i < |a[..n]| && a[..n][i].hexDigest && a[..n][i].located;
      assert valid == if a[n].hexDigest && a[n].located then prior + {n} else prior;
    }
  }

  /** A replication speaks for the claim, against it, or leaves it open; a resolution outweighs the reported outcome. */
  lemma ReplicationScores(r: Replication)
    ensures var ranked := r.resolution in {Some(1), Some(2), Some(4), Some(5)};
      && (r.resolution in {Some(1), Some(2)} ==> ReplicationScore(r) == 8_500)
      && (r.resolution in {Some(4), Some(5)} ==> ReplicationScore(r) == 2_000)
      && (ranked || ReplicationScore(r) ==
            if r.outcome in {Some(1), Some(2)} then 7_500 else if r.outcome in {Some(4), Some(5), Some(6)} then 2_500 else 5_000)
  {
  }

  /** A forecast counts with its confidence, turned round when it speaks against the claim or came out wrong. */
  lemma ForecastScores(f: Forecast)
    ensures var against, wrong, c := f.direction > 1, f.settled && f.matched == Some(false), Bps(f.confidenceBps);
      ForecastScore(f) == if f.direction == 1 then 5_000 else if against != wrong then 10_000 - c else c
  {
  }

  /** The means of these scores; without a replication or a forecast there is no support from them. */
  lemma SupportMeans(rs: seq<Replication>, fs: seq<Forecast>, scores: seq<int>, forecasts: seq<int>, r: int, f: int)
    requires |scores| == |rs| && forall i :: 0 <= i < |rs| ==> scores[i] == ReplicationScore(rs[i])
    requires |forecasts| == |fs| && forall i :: 0 <= i < |fs| ==> forecasts[i] == ForecastScore(fs[i])
    ensures rs == [] ==> ReplicationSupport(rs) == Some(0)
    ensures fs == [] ==> ForecastSupport(fs) == Some(0)
    ensures Nearest(Sum(scores), |rs|, r) ==> ReplicationSupport(rs) == Some(Bps(r))
    ensures Nearest(Sum(forecasts), |fs|, f) ==> ForecastSupport(fs) == Some(Bps(f))
  {
    hide RoundDiv, ReplicationScore, ForecastScore;
    assert scores == seq(|rs|, i requires 0 <= i < |rs| => ReplicationScore(rs[i]));
    assert forecasts == seq(|fs|, i requires 0 <= i < |fs| => ForecastScore(fs[i]));
    if Nearest(Sum(scores), |rs|, r) { RoundsTo(Sum(scores), |rs|, r); }
    if Nearest(Sum(forecasts), |fs|, f) { RoundsTo(Sum(forecasts), |fs|, f); }
  }

  // ----- pressures -----

  /** How many open issues of that severity are about something relevant. */
  function Open(issues: seq<Issue>, relevant: Text -> bool, severity: Severity): nat {
    if issues == [] then 0
    else
      var last := issues[|issues| - 1];
      Open(issues[..|issues| - 1], relevant, severity) + if last.open && last.severity == severity && relevant(last.category) then 1 else 0
  }

  lemma {:induction false} OpenPointsAre(issues: seq<Issue>, relevant: Text -> bool)
    ensures OpenPoints(issues, relevant) == 3_500 * Open(issues, relevant, Critical) + 2_500 * Open(issues, relevant, High)
      + 1_500 * Open(issues, relevant, Medium) + 700 * Open(issues, relevant, Minor)
  {
    if issues != [] { OpenPointsAre(issues[..|issues| - 1], relevant); }
  }

  lemma {:induction false} ChallengeScoreIs(challenges: seq<nat>)
    ensures var m := multiset(challenges);
      ChallengeScore(challenges) == 2_000 * m[0] + 3_500 * m[1] + 800 * m[2] + 4_500 * m[3]
        + 300 * (|challenges| - m[0] - m[1] - m[2] - m[3])
  {
    if challenges != [] {
      var n := |challenges| - 1;
      ChallengeScoreIs(challenges[..n]);
      assert challenges == challenges[..n] + [challenges[n]];
    }
  }

  /** The negative findings: flagged or failed reviews of the three critical types. */
  function Findings(rs: seq<Review>): seq<int> {
    if rs == [] then []
    else
      var last := rs[|rs| - 1];
      Findings(rs[..|rs| - 1])
      + if (last.reviewType == "contradiction_scan" || last.reviewType == "method_consistency_check" || last.reviewType == "stats_sanity_check")
           && last.scores.verdict != C.Pass && last.scores.verdict != C.Inconclusive
        then [if last.scores.confidenceBps < 2_000 then 2_000 else last.scores.confidenceBps] else []
  }

  lemma {:induction false} FindingsAre(rs: seq<Review>)
    ensures NegativeScore(rs) == Sum(Findings(rs))
  {
    hide Sum;
    if rs == [] {
      NoSum();
    } else {
      var init, last := Findings(rs[..|rs| - 1]), rs[|rs| - 1];
      FindingsAre(rs[..|rs| - 1]);
      SumOfAppend(init, if last.scores.confidenceBps < 2_000 then 2_000 else last.scores.confidenceBps);
      assert init + [] == init;
    }
  }

  lemma NoSum()
    ensures Sum([]) == 0
  {
  }

  /** Both pressures: points for challenges or findings, and for the open issues, at most 10000 in all. */
  lemma PressuresAre(challenges: seq<nat>, issues: seq<Issue>, rs: seq<Review>)
    ensures var m, all, critical := multiset(challenges), (c: Text) => true, (c: Text) => c == "contradiction" || c == "methodology";
      && ChallengePressure(challenges, issues) == Bps(
           2_000 * m[0] + 3_500 * m[1] + 800 * m[2] + 4_500 * m[3] + 300 * (|challenges| - m[0] - m[1] - m[2] - m[3])
           + Bps(3_500 * Open(issues, all, Critical) + 2_500 * Open(issues, all, High)
                 + 1_500 * Open(issues, all, Medium) + 700 * Open(issues, all, Minor)))
      && ContradictionPressure(rs, issues) == Bps(
           Sum(Findings(rs))
           + Bps(3_500 * Open(issues, critical, Critical) + 2_500 * Open(issues, critical, High)
                 + 1_500 * Open(issues, critical, Medium) + 700 * Open(issues, critical, Minor)))
  {
    hide Findings, Sum, Open, OpenPoints, ChallengeScore, NegativeScore;
    var all, critical := (c: Text) => true, (c: Text) => c == "contradiction" || c == "methodology";
    ChallengeScoreIs(challenges);
    FindingsAre(rs);
    OpenPointsAre(issues, all);
    OpenPointsAre(issues, critical);
  }

  // ----- the reviews as a whole -----

  /** Coverage: the number of review types against the number of task types. */
  lemma CoverageIs(taskTypes: seq<Text>, rs: seq<Review>, wanted: set<Text>, r: int)
    requires wanted == set i | 0 <= i < |taskTypes| :: taskTypes[i]
    ensures taskTypes == [] ==> ReviewCoverage(taskTypes, rs) == 0
    ensures taskTypes != [] && Nearest(10_000 * |ReviewTypes(rs)|, |wanted|, r) ==> ReviewCoverage(taskTypes, rs) == Bps(r)
  {
    hide RoundDiv, ReviewTypes;
    var types := ReviewTypes(rs);
    if taskTypes != [] && Nearest(10_000 * |types|, |wanted|, r) { RoundsTo(10_000 * |types|, |wanted|, r); }
  }

  /** Diversity: the shares of different agents and actors, and 600 for each review type up to the fifth. */
  lemma DiversityIs(rs: seq<Review>, bonus: int, r: int)
    requires bonus == if |ReviewTypes(rs)| >= 5 then 3_000 else 600 * |ReviewTypes(rs)|
    ensures rs == [] ==> ReviewDiversity(rs) == 0
    ensures Nearest(5_000 * |Agents(rs)| + 2_000 * |Actors(rs)| + bonus * |rs|, |rs|, r) ==> ReviewDiversity(rs) == Bps(r)
  {
    hide RoundDiv, ReviewTypes, Agents, Actors;
    assert bonus == Min(3_000, |ReviewTypes(rs)| * 600);
    var n := 5_000 * |Agents(rs)| + 2_000 * |Actors(rs)| + bonus * |rs|;
    if Nearest(n, |rs|, r) { RoundsTo(n, |rs|, r); }
  }

  lemma ReviewersAre(rs: seq<Review>, t: Text)
    ensures t in ReviewTypes(rs) <==> exists i :: 0 <= i < |rs| && rs[i].reviewType == t
    ensures t in Agents(rs) <==> t != "" && exists i :: 0 <= i < |rs| && rs[i].scores.agent == t
    ensures t in Actors(rs) <==> exists i :: 0 <= i < |rs| && rs[i].actor == t
  {
  }

  /** The latest of the dates that are there. */
  lemma {:induction false} LatestIs(rs: seq<Review>)
    ensures Latest(rs).None? <==> forall i :: 0 <= i < |rs| ==> rs[i].createdAt.None?
    ensures Latest(rs).Some? ==>
      && (exists i :: 0 <= i < |rs| && rs[i].createdAt == Latest(rs))
      && forall i :: 0 <= i < |rs| && rs[i].createdAt.Some? ==> rs[i].createdAt.value <= Latest(rs).value
  {
    if rs != [] {
      var n := |rs| - 1;
      LatestIs(rs[..n]);
      assert forall i :: 0 <= i < n ==> rs[..n][i] == rs[i];
      if Latest(rs[..n]).Some? {
        var j :| 0 <= j < n && rs[..n][j].createdAt == Latest(rs[..n]);
        assert rs[j].createdAt == Latest(rs[..n]);
      }
      assert Latest(rs) == rs[n].createdAt || Latest(rs) == Latest(rs[..n]);
    }
  }

  /** Freshness by the age of the latest review: 7, 30, 90 and 180 days. */
  lemma FreshnessIs(rs: seq<Review>, now: int, last: nat)
    requires last < |rs| && rs[last].createdAt.Some?
    requires forall i :: 0 <= i < |rs| && rs[i].createdAt.Some? ==> rs[i].createdAt.value <= rs[last].createdAt.value
    ensures var age, day := now - rs[last].createdAt.value, 24 * 60 * 60 * 1_000;
      ReviewFreshness(rs, now) ==
        if age > 180 * day then 2_000 else if age > 90 * day then 4_000 else if age > 30 * day then 6_000
        else if age > 7 * day then 8_000 else 10_000
  {
    hide Latest;
    LatestIs(rs);
    var j :| 0 <= j < |rs| && rs[j].createdAt == Latest(rs);
  }

  lemma NeverReviewed(rs: seq<Review>, now: int)
    requires forall i :: 0 <= i < |rs| ==> rs[i].createdAt.None?
    ensures ReviewFreshness(rs, now) == 0
  {
    LatestIs(rs);
  }

  // ----- readiness, support, status -----

  function Has(s: Score): nat {
    if s.Some? then 1 else 0
  }

  lemma PresentMore(scores: seq<Score>, s: Score)
    ensures var p, q := Present(scores), Present(scores + [s]);
      |q| == |p| + Has(s) && Sum(q) == Sum(p) + OrZero(s)
  {
    hide Sum;
    var p := Present(scores);
    assert (scores + [s])[..|scores|] == scores;
    if s.Some? { SumOfAppend(p, s.value); } else { assert p + [] == p; }
  }

  lemma {:induction false} PresentTotals(scores: seq<Score>)
    ensures |Present(scores)| == Counted(scores) && Sum(Present(scores)) == Totalled(scores)
  {
    hide Sum, Present;
    if scores == [] {
      assert Present([]) == [] && Sum([]) == 0 by { NothingPresent(); }
    } else {
      var n := |scores| - 1;
      PresentTotals(scores[..n]);
      PresentMore(scores[..n], scores[n]);
      assert scores == scores[..n] + [scores[n]];
    }
  }

  lemma NothingPresent()
    ensures Present([]) == [] && Sum([]) == 0
  {
  }

  function Counted(scores: seq<Score>): nat {
    if scores == [] then 0 else Counted(scores[..|scores| - 1]) + Has(scores[|scores| - 1])
  }

  function Totalled(scores: seq<Score>): int {
    if scores == [] then 0 else Totalled(scores[..|scores| - 1]) + OrZero(scores[|scores| - 1])
  }

  lemma OneMore(s: seq<Score>, x: Score)
    ensures Counted(s + [x]) == Counted(s) + Has(x) && Totalled(s + [x]) == Totalled(s) + OrZero(x)
  {
    assert (s + [x])[..|s|] == s;
  }

  lemma Three(s: seq<Score>, x: Score, y: Score, z: Score)
    ensures Counted(s + [x, y, z]) == Counted(s) + Has(x) + Has(y) + Has(z)
    ensures Totalled(s + [x, y, z]) == Totalled(s) + OrZero(x) + OrZero(y) + OrZero(z)
  {
    hide Counted, Totalled, Has, OrZero;
    OneMore(s, x);
    OneMore(s + [x], y);
    OneMore(s + [x] + [y], z);
    assert s + [x] + [y] + [z] == s + [x, y, z];
  }

  lemma Seven(a: Score, b: Score, c: Score, d: Score, e: Score, f: Score, g: Score)
    ensures Counted([a, b, c, d, e, f, g]) == Has(a) + Has(b) + Has(c) + Has(d) + Has(e) + Has(f) + Has(g)
    ensures Totalled([a, b, c, d, e, f, g]) == OrZero(a) + OrZero(b) + OrZero(c) + OrZero(d) + OrZero(e) + OrZero(f) + OrZero(g)
  {
    hide Has, OrZero;
    OneMore([], a);
    Three([a], b, c, d);
    Three([a, b, c, d], e, f, g);
    assert [] + [a] == [a] && [a] + [b, c, d] == [a, b, c, d] && [a, b, c, d] + [e, f, g] == [a, b, c, d, e, f, g];
  }

  /** The number of scores that support a claim, and their sum. */
  function SignalCount(d: Dimensions): nat {
    Has(d.artifactCompleteness) + Has(d.artifactIntegrity) + Has(d.methodConsistency) + Has(d.statisticalSanity)
    + Has(d.reproducibilityReadiness) + Has(d.replicationSupport) + Has(d.forecastSupport)
  }

  function SignalSum(d: Dimensions): int {
    OrZero(d.artifactCompleteness) + OrZero(d.artifactIntegrity) + OrZero(d.methodConsistency) + OrZero(d.statisticalSanity)
    + OrZero(d.reproducibilityReadiness) + OrZero(d.replicationSupport) + OrZero(d.forecastSupport)
  }

  lemma Totals(d: Dimensions)
    ensures |Present(SupportSignals(d))| == SignalCount(d) && Sum(Present(SupportSignals(d))) == SignalSum(d)
    ensures |Present(Positives(d))| == SignalCount(d) + Has(d.reviewCoverage) + Has(d.reviewDiversity) + Has(d.reviewFreshness)
    ensures Sum(Present(Positives(d))) == SignalSum(d) + OrZero(d.reviewCoverage) + OrZero(d.reviewDiversity) + OrZero(d.reviewFreshness)
  {
    hide Present, Sum, Counted, Totalled, Has, OrZero;
    PresentTotals(SupportSignals(d));
    PresentTotals(Positives(d));
    Seven(d.artifactCompleteness, d.artifactIntegrity, d.methodConsistency, d.statisticalSanity, d.reproducibilityReadiness,
          d.replicationSupport, d.forecastSupport);
    Seven(d.artifactCompleteness, d.artifactIntegrity, d.methodConsistency, d.statisticalSanity, d.reproducibilityReadiness,
          d.replicationSupport, d.reviewCoverage);
    Three([d.artifactCompleteness, d.artifactIntegrity, d.methodConsistency, d.statisticalSanity, d.reproducibilityReadiness,
         d.replicationSupport, d.reviewCoverage], d.reviewDiversity, d.reviewFreshness, d.forecastSupport);
    assert Positives(d) == [d.artifactCompleteness, d.artifactIntegrity, d.methodConsistency, d.statisticalSanity, d.reproducibilityReadiness,
         d.replicationSupport, d.reviewCoverage] + [d.reviewDiversity, d.reviewFreshness, d.forecastSupport];
  }

  /**
    The readiness: the rounded mean `m` of the ten positive scores that are there, less a third of
    the two pressures, rounded. The three scores about the reviews count here only.
  */
  lemma ReadinessIs(d: Dimensions, m: int, r: int)
    ensures var n := SignalCount(d) + Has(d.reviewCoverage) + Has(d.reviewDiversity) + Has(d.reviewFreshness);
      var total := SignalSum(d) + OrZero(d.reviewCoverage) + OrZero(d.reviewDiversity) + OrZero(d.reviewFreshness);
      && (n == 0 ==> Readiness(d) == 0)
      && (Nearest(total, n, m) && Nearest(3 * Bps(m) - OrZero(d.challengePressure) - OrZero(d.contradictionPressure), 3, r)
          ==> Readiness(d) == Bps(r))
  {
    hide RoundDiv, Present, Sum, Positives, SignalCount, SignalSum, Has;
    Totals(d);
    var n := SignalCount(d) + Has(d.reviewCoverage) + Has(d.reviewDiversity) + Has(d.reviewFreshness);
    var total := SignalSum(d) + OrZero(d.reviewCoverage) + OrZero(d.reviewDiversity) + OrZero(d.reviewFreshness);
    var pressures := OrZero(d.challengePressure) + OrZero(d.contradictionPressure);
    if Nearest(total, n, m) && Nearest(3 * Bps(m) - pressures, 3, r) {
      RoundsTo(total, n, m);
      RoundsTo(3 * Bps(m) - pressures, 3, r);
    }
  }

  /** The support: the rounded mean `m` of the seven signals, less half of the rounded mean `p` of the pressures. */
  lemma SupportIs(d: Dimensions, m: int, p: int, r: int)
    ensures SignalCount(d) == 0 ==> SupportEstimate(d) == 0
    ensures
      (Nearest(SignalSum(d), SignalCount(d), m) && Nearest(OrZero(d.challengePressure) + OrZero(d.contradictionPressure), 2, p)
       && Nearest(2 * Bps(m) - Bps(p), 2, r)) ==> SupportEstimate(d) == Bps(r)
  {
    hide RoundDiv, Present, Sum, SupportSignals, SignalCount, SignalSum;
    Totals(d);
    var a, b := OrZero(d.challengePressure), OrZero(d.contradictionPressure);
    assert Sum([a, b]) == a + b by { PairSum(a, b); }
    if Nearest(SignalSum(d), SignalCount(d), m) && Nearest(a + b, 2, p) && Nearest(2 * Bps(m) - Bps(p), 2, r) {
      RoundsTo(SignalSum(d), SignalCount(d), m);
      RoundsTo(a + b, 2, p);
      RoundsTo(2 * Bps(m) - Bps(p), 2, r);
    }
  }

  lemma PairSum(a: int, b: int)
    ensures Sum([a, b]) == a + b
  {
    NoSum();
    SumOfAppend([], a);
    SumOfAppend([a], b);
    assert [] + [a] == [a] && [a] + [b] == [a, b];
  }

  /** The overall status, in the numbers of the certificate. */
  lemma OverallIs(d: Dimensions, agents: nat)
    ensures var contested := OrZero(d.challengePressure) >= 6_000 || OrZero(d.contradictionPressure) >= 6_000;
      var ready := OrZero(d.certificationReadiness) >= 7_500 && OrZero(d.reviewCoverage) >= 6_000 && OrZero(d.reviewDiversity) >= 4_500;
      var complete := OrZero(d.certificationReadiness) >= 8_500 && agents >= 2;
      && (Overall(d, agents) == Contested <==> contested)
      && (Overall(d, agents) == Certified <==> ready && complete && !contested)
      && (Overall(d, agents) == Provisional <==> ready && !complete && !contested)
      && (Overall(d, agents) == Pending <==> !ready && !contested)
  {
  }

  /** A submitted readiness counts as it is; without one the computed readiness does. */
  lemma SubmittedReadiness(d: Dimensions)
    ensures FillReadiness(d).(certificationReadiness := None) == d.(certificationReadiness := None)
    ensures FillReadiness(d).certificationReadiness ==
      if d.certificationReadiness.Some? then d.certificationReadiness else Some(Readiness(d))
  {
    hide Readiness;
  }
}
