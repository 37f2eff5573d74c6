/**
  From submissions and facts to certification (src/review/aggregation.ts, `buildClaimReviewState`):
  every dimension is the weighted mean of the submitted scores or, when there is none, a fallback
  computed from the record, so readiness and support never see a missing score.
*/
module ReviewState {
  import opened Common
  import opened Rounding
  import opened Certification
  import C = Calibration

  type Text = string

  /** `hexDigest`: the digest starts with 0x; `located`: the uri is not blank. */
  datatype Artifact = Artifact(kind: nat, hexDigest: bool, located: bool)
  datatype Replication = Replication(resolution: Option<nat>, outcome: Option<nat>)
  datatype Forecast = Forecast(confidenceBps: int, direction: nat, settled: bool, matched: Option<bool>)
  datatype Severity = Critical | High | Medium | Minor
  datatype Issue = Issue(severity: Severity, open: bool, category: Text)
  datatype Review = Review(scores: C.Submission, reviewType: Text, actor: Text, createdAt: Option<int>)

  datatype Facts = Facts(
    artifacts: seq<Artifact>, replications: seq<Replication>, forecasts: seq<Forecast>,
    challenges: seq<nat>, issues: seq<Issue>, taskTypes: seq<Text>, now: int)

  // ----- fallbacks -----

  predicate HasKind(artifacts: seq<Artifact>, kind: nat) {
    exists i :: 0 <= i < |artifacts| && artifacts[i].kind == kind
  }

  function ArtifactCompleteness(a: seq<Artifact>): int {
    if a == [] then 0
    else ClampBps(3_500 + Min(|a|, 3) * 1_300 + (if HasKind(a, 5) then 1_200 else 0)
                  + (if HasKind(a, 1) || HasKind(a, 4) then 1_000 else 0) + if HasKind(a, 2) then 700 else 0)
  }

  function ValidArtifacts(a: seq<Artifact>): nat {
    if a == [] then 0
    else ValidArtifacts(a[..|a| - 1]) + if a[|a| - 1].hexDigest && a[|a| - 1].located then 1 else 0
  }

  function ArtifactIntegrity(a: seq<Artifact>): int {
    if a == [] then 0 else ClampBps(RoundDiv(ValidArtifacts(a) * 10_000, |a|))
  }

  function MethodConsistency(a: seq<Artifact>): int {
    if HasKind(a, 5) then (if HasKind(a, 1) || HasKind(a, 4) then 7_000 else 6_000)
    else if |a| > 0 then 4_500 else 0
  }

  function StatisticalSanity(a: seq<Artifact>, r: seq<Replication>): int {
    if HasKind(a, 5) && |r| > 0 then 6_500 else if HasKind(a, 5) then 5_000 else 0
  }

  function ReproducibilityReadiness(a: seq<Artifact>): int {
    if HasKind(a, 1) && (HasKind(a, 2) || HasKind(a, 4)) then 8_500
    else if HasKind(a, 1) || HasKind(a, 4) then 7_000
    else if |a| > 0 then 4_000 else 0
  }

  function ReplicationScore(r: Replication): int {
    if r.resolution == Some(1) || r.resolution == Some(2) then 8_500
    else if r.resolution == Some(4) || r.resolution == Some(5) then 2_000
    else if r.outcome == Some(1) || r.outcome == Some(2) then 7_500
    else if r.outcome == Some(4) || r.outcome == Some(5) || r.outcome == Some(6) then 2_500
    else 5_000
  }

  function ReplicationSupport(r: seq<Replication>): Score {
    if r == [] then Some(0) else Average(seq(|r|, i requires 0 <= i < |r| => ReplicationScore(r[i])))
  }

  function ForecastScore(f: Forecast): int {
    var confidence := ClampBps(f.confidenceBps);
    var base := if f.direction == 0 then confidence else if f.direction == 1 then 5_000 else 10_000 - confidence;
    if f.settled && f.matched == Some(false) then ClampBps(10_000 - base) else base
  }

  function ForecastSupport(f: seq<Forecast>): Score {
    if f == [] then Some(0) else Average(seq(|f|, i requires 0 <= i < |f| => ForecastScore(f[i])))
  }

  function Points(s: Severity): int {
    if s.Critical? then 3_500 else if s.High? then 2_500 else if s.Medium? then 1_500 else 700
  }

  /** `severityPressure` of the open issues that `relevant` selects. */
  function OpenPressure(issues: seq<Issue>, relevant: Text -> bool): int {
    ClampBps(OpenPoints(issues, relevant))
  }

  function OpenPoints(issues: seq<Issue>, relevant: Text -> bool): int {
    if issues == [] then 0
    else
      var issue := issues[|issues| - 1];
      OpenPoints(issues[..|issues| - 1], relevant) + if issue.open && relevant(issue.category) then Points(issue.severity) else 0
  }

  function ChallengePoints(status: nat): int {
    if status == 0 then 2_000 else if status == 1 then 3_500 else if status == 2 then 800 else if status == 3 then 4_500 else 300
  }

  function ChallengeScore(challenges: seq<nat>): int {
    if challenges == [] then 0
    else ChallengeScore(challenges[..|challenges| - 1]) + ChallengePoints(challenges[|challenges| - 1])
  }

  function ChallengePressure(challenges: seq<nat>, issues: seq<Issue>): int {
    ClampBps(ChallengeScore(challenges) + OpenPressure(issues, (c: Text) => true))
  }

  predicate Negative(r: Review) {
    && r.reviewType in ["contradiction_scan", "method_consistency_check", "stats_sanity_check"]
    && (r.scores.verdict.Fail? || r.scores.verdict.Flag?)
  }

  function NegativeScore(rs: seq<Review>): int {
    if rs == [] then 0
    else NegativeScore(rs[..|rs| - 1]) + if Negative(rs[|rs| - 1]) then Max(2_000, rs[|rs| - 1].scores.confidenceBps) else 0
  }

  function ContradictionPressure(rs: seq<Review>, issues: seq<Issue>): int {
    ClampBps(NegativeScore(rs) + OpenPressure(issues, (c: Text) => c == "contradiction" || c == "methodology"))
  }

  function ReviewTypes(rs: seq<Review>): set<Text> { set i | 0 <= i < |rs| :: rs[i].reviewType }
  function Agents(rs: seq<Review>): set<Text> { set i | 0 <= i < |rs| && rs[i].scores.agent != "" :: rs[i].scores.agent }
  function Actors(rs: seq<Review>): set<Text> { set i | 0 <= i < |rs| :: rs[i].actor }

  function ReviewCoverage(taskTypes: seq<Text>, rs: seq<Review>): int {
    if taskTypes == [] then 0
    else ClampBps(RoundDiv(|ReviewTypes(rs)| * 10_000, Max(1, |set i | 0 <= i < |taskTypes| :: taskTypes[i]|)))
  }

  function ReviewDiversity(rs: seq<Review>): int {
    if rs == [] then 0
    else ClampBps(RoundDiv(|Agents(rs)| * 5_000 + |Actors(rs)| * 2_000 + Min(3_000, |ReviewTypes(rs)| * 600) * |rs|, |rs|))
  }

  function Latest(rs: seq<Review>): Option<int> {
    if rs == [] then None
    else
      var prior, at := Latest(rs[..|rs| - 1]), rs[|rs| - 1].createdAt;
      if at.Some? && (prior.None? || prior.value < at.value) then at else prior
  }

  const DAY_MS := 86_400_000

  function ReviewFreshness(rs: seq<Review>, now: int): int {
    if Latest(rs).None? then 0
    else
      var age := now - Latest(rs).value;
      if age <= 7 * DAY_MS then 10_000 else if age <= 30 * DAY_MS then 8_000
      else if age <= 90 * DAY_MS then 6_000 else if age <= 180 * DAY_MS then 4_000 else 2_000
  }

  // ----- the dimensions -----

  function Scores(rs: seq<Review>): seq<C.Submission> {
    seq(|rs|, i requires 0 <= i < |rs| => rs[i].scores)
  }

  function Aggregate(history: map<Text, C.Entry>, rs: seq<Review>, dimension: C.Dimension): Score {
    C.AggregateDimension(history, Scores(rs), dimension)
  }

  /** The vector whose entry for each dimension is its score. */
  function VectorOf(score: C.Dimension -> Score): Dimensions {
    Dimensions(score(C.ArtifactCompleteness), score(C.ArtifactIntegrity), score(C.MethodConsistency),
               score(C.StatisticalSanity), score(C.ReproducibilityReadiness), score(C.ReplicationSupport),
               score(C.ReviewCoverage), score(C.ReviewDiversity), score(C.ReviewFreshness), score(C.ForecastSupport),
               score(C.ChallengePressure), score(C.ContradictionPressure), score(C.CertificationReadiness))
  }

  /** The weighted means of the submitted scores. */
  function Submitted(history: map<Text, C.Entry>, rs: seq<Review>): Dimensions {
    VectorOf((dimension: C.Dimension) => Aggregate(history, rs, dimension))
  }

  /** The fallbacks, all of them present. */
  function Fallbacks(x: Facts, rs: seq<Review>): Dimensions {
    Dimensions(Some(ArtifactCompleteness(x.artifacts)), Some(ArtifactIntegrity(x.artifacts)),
               Some(MethodConsistency(x.artifacts)), Some(StatisticalSanity(x.artifacts, x.replications)),
               Some(ReproducibilityReadiness(x.artifacts)), ReplicationSupport(x.replications),
               Some(ReviewCoverage(x.taskTypes, rs)), Some(ReviewDiversity(rs)), Some(ReviewFreshness(rs, x.now)),
               ForecastSupport(x.forecasts), Some(ChallengePressure(x.challenges, x.issues)),
               Some(ContradictionPressure(rs, x.issues)), None)
  }

  /** Each dimension is the first of the two that is there. */
  function OrElse(d: Dimensions, f: Dimensions): Dimensions {
    Dimensions(Coalesce(d.artifactCompleteness, f.artifactCompleteness), Coalesce(d.artifactIntegrity, f.artifactIntegrity),
               Coalesce(d.methodConsistency, f.methodConsistency), Coalesce(d.statisticalSanity, f.statisticalSanity),
               Coalesce(d.reproducibilityReadiness, f.reproducibilityReadiness), Coalesce(d.replicationSupport, f.replicationSupport),
               Coalesce(d.reviewCoverage, f.reviewCoverage), Coalesce(d.reviewDiversity, f.reviewDiversity),
               Coalesce(d.reviewFreshness, f.reviewFreshness), Coalesce(d.forecastSupport, f.forecastSupport),
               Coalesce(d.challengePressure, f.challengePressure), Coalesce(d.contradictionPressure, f.contradictionPressure),
               d.certificationReadiness)
  }

  function Filled(history: map<Text, C.Entry>, x: Facts, rs: seq<Review>): Dimensions {
    OrElse(Submitted(history, rs), Fallbacks(x, rs))
  }

  /** The aggregates, then the `??=` assignments one after the other, the readiness last. */
  method FillDimensions(history: map<Text, C.Entry>, x: Facts, rs: seq<Review>) returns (d: Dimensions)
    ensures d == FillReadiness(Filled(history, x, rs))
    ensures AllPresent(d)
  {
    hide Submitted, ArtifactCompleteness, ArtifactIntegrity, MethodConsistency, StatisticalSanity, ReproducibilityReadiness, Readiness;
    d := Submitted(history, rs);
    d := d.(artifactCompleteness := Coalesce(d.artifactCompleteness, Some(ArtifactCompleteness(x.artifacts))));
    d := d.(artifactIntegrity := Coalesce(d.artifactIntegrity, Some(ArtifactIntegrity(x.artifacts))));
    d := d.(methodConsistency := Coalesce(d.methodConsistency, Some(MethodConsistency(x.artifacts))));
    d := d.(statisticalSanity := Coalesce(d.statisticalSanity, Some(StatisticalSanity(x.artifacts, x.replications))));
    d := d.(reproducibilityReadiness := Coalesce(d.reproducibilityReadiness, Some(ReproducibilityReadiness(x.artifacts))));
    d := d.(replicationSupport := Coalesce(d.replicationSupport, ReplicationSupport(x.replications)));
    d := d.(forecastSupport := Coalesce(d.forecastSupport, ForecastSupport(x.forecasts)));
    d := d.(challengePressure := Coalesce(d.challengePressure, Some(ChallengePressure(x.challenges, x.issues))));
    d := d.(contradictionPressure := Coalesce(d.contradictionPressure, Some(ContradictionPressure(rs, x.issues))));
    d := d.(reviewCoverage := Coalesce(d.reviewCoverage, Some(ReviewCoverage(x.taskTypes, rs))));
    d := d.(reviewDiversity := Coalesce(d.reviewDiversity, Some(ReviewDiversity(rs))));
    d := d.(reviewFreshness := Coalesce(d.reviewFreshness, Some(ReviewFreshness(rs, x.now))));
    assert d == Filled(history, x, rs);
    FilledPresent(history, x, rs);
    ReadinessKeepsPresent(d);
    d := d.(certificationReadiness := Coalesce(d.certificationReadiness, Some(Readiness(d))));
  }

  // ----- no score is missing -----

  /** Every dimension but the readiness is there, in basis points. */
  ghost predicate AllPresent(d: Dimensions) {
    && (forall i :: 0 <= i < 10 ==> Positives(d)[i].Some? && InRange(Positives(d)[i]))
    && d.challengePressure.Some? && InRange(d.challengePressure)
    && d.contradictionPressure.Some? && InRange(d.contradictionPressure)
  }

  lemma ReadinessKeepsPresent(d: Dimensions)
    requires AllPresent(d)
    ensures AllPresent(FillReadiness(d))
  {
    hide Readiness;
    assert Positives(FillReadiness(d)) == Positives(d);
  }

  lemma AggregateInRange(history: map<Text, C.Entry>, rs: seq<Review>, dimension: C.Dimension)
    ensures InRange(Aggregate(history, rs, dimension))
  {
  }

  lemma VectorInRange(score: C.Dimension -> Score)
    requires forall dimension :: InRange(score(dimension))
    ensures var d := VectorOf(score);
      AllInRange(Positives(d)) && InRange(d.challengePressure) && InRange(d.contradictionPressure) && InRange(d.certificationReadiness)
  {
    hide InRange;
    var ps := Positives(VectorOf(score));
    assert InRange(ps[0]) && InRange(ps[1]) && InRange(ps[2]) && InRange(ps[3]) && InRange(ps[4]);
    assert InRange(ps[5]) && InRange(ps[6]) && InRange(ps[7]) && InRange(ps[8]) && InRange(ps[9]);
  }

  lemma SubmittedInRange(history: map<Text, C.Entry>, rs: seq<Review>)
    ensures var d := Submitted(history, rs);
      AllInRange(Positives(d)) && InRange(d.challengePressure) && InRange(d.contradictionPressure) && InRange(d.certificationReadiness)
  {
    hide Aggregate, InRange, VectorOf, Positives;
    var score := (dimension: C.Dimension) => Aggregate(history, rs, dimension);
    forall dimension ensures InRange(score(dimension)) { AggregateInRange(history, rs, dimension); }
    VectorInRange(score);
  }

  lemma ClampedFallbacks(x: Facts, rs: seq<Review>)
    ensures 0 <= ArtifactCompleteness(x.artifacts) <= 10_000 && 0 <= ArtifactIntegrity(x.artifacts) <= 10_000
    ensures 0 <= ReviewCoverage(x.taskTypes, rs) <= 10_000 && 0 <= ReviewDiversity(rs) <= 10_000
    ensures 0 <= ChallengePressure(x.challenges, x.issues) <= 10_000 && 0 <= ContradictionPressure(rs, x.issues) <= 10_000
  {
    hide RoundDiv;
  }

  lemma FallbacksPresent(x: Facts, rs: seq<Review>)
    ensures AllPresent(Fallbacks(x, rs))
  {
    hide RoundDiv, Sum, Latest, HasKind, ReviewTypes, Agents, Actors, ReviewCoverage, ReviewDiversity, ArtifactCompleteness, ArtifactIntegrity,
      ChallengePressure, ContradictionPressure;
    ClampedFallbacks(x, rs);
    var d := Fallbacks(x, rs);
    assert ReplicationSupport(x.replications).Some? && ForecastSupport(x.forecasts).Some?;
  }

  lemma OrElsePresent(d: Dimensions, f: Dimensions)
    requires AllInRange(Positives(d)) && InRange(d.challengePressure) && InRange(d.contradictionPressure)
    requires AllPresent(f)
    ensures AllPresent(OrElse(d, f))
  {
    hide InRange;
    var a, b, r := Positives(d), Positives(f), Positives(OrElse(d, f));
    forall i | 0 <= i < 10 ensures r[i].Some? && InRange(r[i]) {
      assert InRange(a[i]) && b[i].Some? && InRange(b[i]);
      assert r[i] == Coalesce(a[i], b[i]);
    }
  }

  /** After the fill no score is missing, whatever was submitted and whatever the record holds. */
  lemma FilledPresent(history: map<Text, C.Entry>, x: Facts, rs: seq<Review>)
    ensures AllPresent(Filled(history, x, rs))
  {
    hide Submitted, Fallbacks, OrElse, AllPresent, AllInRange, InRange, Positives;
    SubmittedInRange(history, rs);
    FallbacksPresent(x, rs);
    OrElsePresent(Submitted(history, rs), Fallbacks(x, rs));
  }

  // ----- monotonicity from the submissions to the certificate -----

  predicate IsPressure(k: C.Dimension) {
    k.ChallengePressure? || k.ContradictionPressure?
  }

  /** The same submission with scores for the same dimensions: none lowered, no pressure raised. */
  ghost predicate NoWorse(a: Review, b: Review) {
    && b == a.(scores := b.scores)
    && forall k :: if IsPressure(k) then C.Lifted(b.scores, a.scores, k) else C.Lifted(a.scores, b.scores, k)
  }

  ghost predicate AllNoWorse(rs: seq<Review>, ss: seq<Review>) {
    |rs| == |ss| && forall i :: 0 <= i < |rs| ==> NoWorse(rs[i], ss[i])
  }

  lemma AggregateRaised(history: map<Text, C.Entry>, rs: seq<Review>, ss: seq<Review>, k: C.Dimension)
    requires AllNoWorse(rs, ss)
    ensures if IsPressure(k) then Raised(Aggregate(history, ss, k), Aggregate(history, rs, k))
            else Raised(Aggregate(history, rs, k), Aggregate(history, ss, k))
  {
    hide C.AggregateDimension, C.Lifted;
    var xs, ys := Scores(rs), Scores(ss);
    forall i | 0 <= i < |xs| ensures if IsPressure(k) then C.Lifted(ys[i], xs[i], k) else C.Lifted(xs[i], ys[i], k) {
      assert NoWorse(rs[i], ss[i]);
    }
    if IsPressure(k) { C.AggregateLifted(history, ys, xs, k); } else { C.AggregateLifted(history, xs, ys, k); }
  }

  /** The parts of a review that the fallbacks read. */
  predicate SameFrame(a: Review, b: Review) {
    b == a.(scores := a.scores.(dimensions := b.scores.dimensions))
  }

  lemma {:induction false} SameFallbacks(rs: seq<Review>, ss: seq<Review>)
    requires |rs| == |ss| && forall i :: 0 <= i < |rs| ==> SameFrame(rs[i], ss[i])
    ensures NegativeScore(rs) == NegativeScore(ss) && Latest(rs) == Latest(ss)
    ensures ReviewTypes(rs) == ReviewTypes(ss) && Agents(rs) == Agents(ss) && Actors(rs) == Actors(ss)
  {
    if rs != [] {
      assert SameFrame(rs[|rs| - 1], ss[|ss| - 1]);
      SameFallbacks(rs[..|rs| - 1], ss[..|ss| - 1]);
    }
  }

  lemma VectorBetter(f: C.Dimension -> Score, g: C.Dimension -> Score, fallback: Dimensions)
    requires forall k :: if IsPressure(k) then Raised(g(k), f(k)) else Raised(f(k), g(k))
    ensures Better(OrElse(VectorOf(f), fallback), OrElse(VectorOf(g), fallback))
  {
    var d, e := OrElse(VectorOf(f), fallback), OrElse(VectorOf(g), fallback);
    assert forall k :: !IsPressure(k) ==> Raised(f(k), g(k));
    assert Raised(g(C.ChallengePressure), f(C.ChallengePressure)) && Raised(g(C.ContradictionPressure), f(C.ContradictionPressure));
    hide IsPressure;
    var a, b := Positives(d), Positives(e);
    forall i | 0 <= i < |a| ensures Raised(a[i], b[i]) {
    }
  }

  lemma EqualFallbacks(x: Facts, rs: seq<Review>, ss: seq<Review>)
    requires AllNoWorse(rs, ss)
    ensures Fallbacks(x, rs) == Fallbacks(x, ss) && Agents(rs) == Agents(ss)
  {
    hide RoundDiv, SameFrame, NegativeScore, Latest, ReviewTypes, Agents, Actors, NoWorse, ArtifactCompleteness, ArtifactIntegrity,
      MethodConsistency, StatisticalSanity, ReproducibilityReadiness, ReplicationSupport, ForecastSupport, ChallengePressure, OpenPressure;
    forall i | 0 <= i < |rs| ensures SameFrame(rs[i], ss[i]) { assert NoWorse(rs[i], ss[i]); LiftedFrame(rs[i], ss[i]); }
    SameFallbacks(rs, ss);
  }

  lemma FilledBetter(history: map<Text, C.Entry>, x: Facts, rs: seq<Review>, ss: seq<Review>)
    requires AllNoWorse(rs, ss)
    ensures Better(Filled(history, x, rs), Filled(history, x, ss))
  {
    hide Aggregate, Better, VectorOf, OrElse, Fallbacks, AllNoWorse, Raised;
    var f, g := (k: C.Dimension) => Aggregate(history, rs, k), (k: C.Dimension) => Aggregate(history, ss, k);
    forall k ensures if IsPressure(k) then Raised(g(k), f(k)) else Raised(f(k), g(k)) { AggregateRaised(history, rs, ss, k); }
    EqualFallbacks(x, rs, ss);
    VectorBetter(f, g, Fallbacks(x, rs));
  }

  lemma LiftedFrame(a: Review, b: Review)
    requires NoWorse(a, b)
    ensures SameFrame(a, b)
  {
    assert C.Lifted(a.scores, b.scores, C.ReviewCoverage);
  }

  /**
    From the submissions to the certificate: raising submitted scores and lowering submitted
    pressures, with the same record and the same reviewers, never lowers the support estimate, the
    readiness or the rank of the overall certification.
  */
  lemma ReviewMonotone(history: map<Text, C.Entry>, x: Facts, rs: seq<Review>, ss: seq<Review>)
    requires AllNoWorse(rs, ss)
    ensures var d, e := FillReadiness(Filled(history, x, rs)), FillReadiness(Filled(history, x, ss));
      && AllPresent(d) && AllPresent(e)
      && SupportEstimate(d) <= SupportEstimate(e)
      && OrZero(d.certificationReadiness) <= OrZero(e.certificationReadiness)
      && Rank(Overall(d, |Agents(rs)|)) <= Rank(Overall(e, |Agents(ss)|))
  {
    hide Filled, AllPresent, Readiness, Present, Average, Rank, Overall, AllRaised, Agents, Fallbacks;
    var d, e := Filled(history, x, rs), Filled(history, x, ss);
    FilledPresent(history, x, rs);
    FilledPresent(history, x, ss);
    ReadinessKeepsPresent(d);
    ReadinessKeepsPresent(e);
    EqualFallbacks(x, rs, ss);
    FilledBetter(history, x, rs, ss);
    CertificationMonotone(d, e, |Agents(rs)|, |Agents(ss)|);
    assert SupportSignals(FillReadiness(d)) == SupportSignals(d) && SupportSignals(FillReadiness(e)) == SupportSignals(e);
  }
}
