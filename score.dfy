/**
 * The client scorer's aggregation (App.js, the end of
 * `analyzePostureFromLandmarks`): the severity score, the confidence-weighted
 * 0..100 posture score and the five assessment bands.
 */
module ScoreAggregator {
  import opened Wrappers
  import opened JsNumber
  import opened FeatureExtractor
  import opened Geometry
  import opened IssueDetector

  const MAX_POSSIBLE_ISSUES: nat := 6
  const MAX_SEVERITY_SCORE: nat := MAX_POSSIBLE_ISSUES * 3

  /** `issues.reduce((sum, issue) => sum + weight(issue.severity), 0)` */
  function SeverityScore(issues: seq<Issue>): nat
    decreases |issues|
  {
    if issues == [] then 0
    else SeverityScore(issues[..|issues| - 1]) + Weight(issues[|issues| - 1].severity)
  }

  lemma {:induction false} SeverityScoreAppend(a: seq<Issue>, b: seq<Issue>)
    ensures SeverityScore(a + b) == SeverityScore(a) + SeverityScore(b)
    decreases |b|
  {
    if b == [] {
      assert a + b == a;
    } else {
      var b' := b[..|b| - 1];
      SeverityScoreAppend(a, b');
      assert (a + b)[..|a + b| - 1] == a + b';
    }
  }

  /** Every issue weighs between 1 and 3. */
  lemma {:induction false} SeverityScoreBounds(issues: seq<Issue>)
    ensures |issues| <= SeverityScore(issues) <= 3 * |issues|
    decreases |issues|
  {
    if issues != [] {
      SeverityScoreBounds(issues[..|issues| - 1]);
    }
  }

  /** The sum of the check weights, in check order. */
  function WeightSum(os: seq<Option<Issue>>): nat
    decreases |os|
  {
    if os == [] then 0 else WeightSum(os[..|os| - 1]) + IssueWeight(os[|os| - 1])
  }

  lemma {:induction false} CollectedSeverity(os: seq<Option<Issue>>)
    ensures SeverityScore(Collect(os)) == WeightSum(os)
    decreases |os|
  {
    if os != [] {
      var n := |os| - 1;
      CollectedSeverity(os[..n]);
      SeverityScoreAppend(Collect(os[..n]), AsSeq(os[n]));
      if os[n].Some? {
        assert SeverityScore([os[n].value]) == SeverityScore([]) + Weight(os[n].value.severity);
      }
    }
  }

  /** The severity score of a frame is the sum of the six ladder ranks of its measurements. */
  lemma SeverityOfFeatures(f: Features)
    ensures SeverityScore(IssuesOf(f)) ==
      Rank(Classify(f.headForwardRatio, FORWARD_HEAD))
      + Rank(Classify(f.shoulderImbalanceRatio, SHOULDER_IMBALANCE))
      + Rank(Classify(Finite(Magnitude(f.headTiltAngle)), HEAD_TILT))
      + Rank(Classify(Abs(f.shoulderProtraction), PROTRACTION))
      + Rank(Classify(f.spinalDeviation, SPINAL_DEVIATION))
      + Rank(Classify(Finite(BandDistance(f.neckAngle)), Ladder(0.0, 5.0, 10.0)))
  {
    var cs := Checks(f);
    CollectedSeverity(cs);
    WeightSumOfSix(cs);
    assert IssueWeight(cs[0]) == Rank(Classify(f.headForwardRatio, FORWARD_HEAD)) by {
      WeightIsRank(cs[0], f.headForwardRatio, FORWARD_HEAD);
    }
    assert IssueWeight(cs[1]) == Rank(Classify(f.shoulderImbalanceRatio, SHOULDER_IMBALANCE)) by {
      WeightIsRank(cs[1], f.shoulderImbalanceRatio, SHOULDER_IMBALANCE);
    }
    assert IssueWeight(cs[2]) == Rank(Classify(Finite(Magnitude(f.headTiltAngle)), HEAD_TILT)) by {
      WeightIsRank(cs[2], Finite(Magnitude(f.headTiltAngle)), HEAD_TILT);
    }
    assert IssueWeight(cs[3]) == Rank(Classify(Abs(f.shoulderProtraction), PROTRACTION)) by {
      WeightIsRank(cs[3], Abs(f.shoulderProtraction), PROTRACTION);
    }
    assert IssueWeight(cs[4]) == Rank(Classify(f.spinalDeviation, SPINAL_DEVIATION)) by {
      WeightIsRank(cs[4], f.spinalDeviation, SPINAL_DEVIATION);
    }
    assert IssueWeight(cs[5]) == Rank(Classify(Finite(BandDistance(f.neckAngle)), Ladder(0.0, 5.0, 10.0))) by {
      CervicalIsLadderOnBandDistance(f.neckAngle);
    }
  }

  lemma WeightIsRank(o: Option<Issue>, x: Num, l: Ladder)
    requires o.Some? <==> Above(x, l.emitAbove)
    requires o.Some? ==> Classify(x, l) == Some(o.value.severity)
    ensures IssueWeight(o) == Rank(Classify(x, l))
  {
  }

  lemma WeightSumOfSix(cs: seq<Option<Issue>>)
    requires |cs| == 6
    ensures WeightSum(cs) == IssueWeight(cs[0]) + IssueWeight(cs[1]) + IssueWeight(cs[2]) + IssueWeight(cs[3]) + IssueWeight(cs[4]) + IssueWeight(cs[5])
  {
    assert cs[..5][..4] == cs[..4];
    assert cs[..4][..3] == cs[..3];
    assert cs[..3][..2] == cs[..2];
    assert cs[..2][..1] == cs[..1];
    assert cs[..1][..0] == [];
    assert WeightSum(cs[..1]) == WeightSum([]) + IssueWeight(cs[0]);
    assert WeightSum(cs[..2]) == WeightSum(cs[..1]) + IssueWeight(cs[1]);
    assert WeightSum(cs[..3]) == WeightSum(cs[..2]) + IssueWeight(cs[2]);
    assert WeightSum(cs[..4]) == WeightSum(cs[..3]) + IssueWeight(cs[3]);
    assert WeightSum(cs[..5]) == WeightSum(cs[..4]) + IssueWeight(cs[4]);
    assert WeightSum(cs) == WeightSum(cs[..5]) + IssueWeight(cs[5]);
  }

  /** A frame's severity score lies between its issue count and three times it, and never exceeds 18. */
  lemma SeverityScoreOfFrame(f: Features)
    ensures |IssuesOf(f)| <= SeverityScore(IssuesOf(f)) <= 3 * |IssuesOf(f)| <= MAX_SEVERITY_SCORE
  {
    IssuesWellFormed(f);
    SeverityScoreBounds(IssuesOf(f));
  }

  /** `Math.max(0, (maxSeverityScore - severityScore) / maxSeverityScore)` */
  function RawScore(severity: nat): (r: real)
    ensures 0.0 <= r <= 1.0
    ensures r == 1.0 <==> severity == 0
    ensures r == 0.0 <==> severity >= MAX_SEVERITY_SCORE
    ensures severity <= MAX_SEVERITY_SCORE ==> r * (MAX_SEVERITY_SCORE as real) == (MAX_SEVERITY_SCORE - severity) as real
  {
    Max(0.0, (MAX_SEVERITY_SCORE as real - severity as real) / MAX_SEVERITY_SCORE as real)
  }

  /** `Math.round(rawScore * confidence * 100)` */
  function PostureScore(severity: nat, confidence: real): int {
    Round(RawScore(severity) * confidence * 100.0)
  }

  lemma ProductInUnit(a: real, b: real)
    requires 0.0 <= a <= 1.0 && 0.0 <= b <= 1.0
    ensures 0.0 <= a * b <= b
  {
  }

  lemma ProductMonotone(a: real, b: real, c: real)
    requires a <= b && c >= 0.0
    ensures a * c <= b * c
  {
  }

  /** The score is a percentage whenever the confidence is a probability. */
  lemma PostureScoreRange(severity: nat, confidence: real)
    requires 0.0 <= confidence <= 1.0
    ensures 0 <= PostureScore(severity, confidence) <= 100
  {
    var r := RawScore(severity);
    ProductInUnit(r, confidence);
    assert r * confidence <= 1.0;
    ProductMonotone(r * confidence, 1.0, 100.0);
  }

  /** A heavier severity never raises the score. */
  lemma PostureScoreAntitone(s1: nat, s2: nat, confidence: real)
    requires s1 <= s2 && confidence >= 0.0
    ensures PostureScore(s2, confidence) <= PostureScore(s1, confidence)
  {
    var r1 := RawScore(s1);
    var r2 := RawScore(s2);
    assert r2 <= r1;
    ProductMonotone(r2, r1, confidence);
    ProductMonotone(r2 * confidence, r1 * confidence, 100.0);
  }

  /** More confidence never lowers the score. */
  lemma PostureScoreMonotoneInConfidence(severity: nat, c1: real, c2: real)
    requires c1 <= c2
    ensures PostureScore(severity, c1) <= PostureScore(severity, c2)
  {
    var r := RawScore(severity);
    ProductMonotone(c1, c2, r);
    assert r * c1 <= r * c2;
    ProductMonotone(r * c1, r * c2, 100.0);
  }

  /** With no issue the score is the confidence as a percentage: at least 50, since the confidence is clamped to 0.5..1. */
  lemma ScoreWithoutIssues(confidence: real)
    requires 0.5 <= confidence <= 1.0
    ensures PostureScore(0, confidence) == Round(confidence * 100.0)
    ensures 50 <= PostureScore(0, confidence) <= 100
  {
  }

  /**
   * Larger measurements, compared one by one (the tilt and protraction by
   * magnitude, the neck angle by its distance from the normal band), never
   * raise a frame's score at equal confidence.
   */
  lemma WorseFeaturesNeverScoreHigher(f: Features, g: Features, confidence: real)
    requires AtMost(f.headForwardRatio, g.headForwardRatio)
    requires AtMost(f.shoulderImbalanceRatio, g.shoulderImbalanceRatio)
    requires Magnitude(f.headTiltAngle) <= Magnitude(g.headTiltAngle)
    requires AtMost(Abs(f.shoulderProtraction), Abs(g.shoulderProtraction))
    requires AtMost(f.spinalDeviation, g.spinalDeviation)
    requires BandDistance(f.neckAngle) <= BandDistance(g.neckAngle)
    requires confidence >= 0.0
    ensures SeverityScore(IssuesOf(f)) <= SeverityScore(IssuesOf(g))
    ensures PostureScore(SeverityScore(IssuesOf(g)), confidence) <= PostureScore(SeverityScore(IssuesOf(f)), confidence)
  {
    SeverityOfFeatures(f);
    SeverityOfFeatures(g);
    LadderMonotone(f.headForwardRatio, g.headForwardRatio, FORWARD_HEAD);
    LadderMonotone(f.shoulderImbalanceRatio, g.shoulderImbalanceRatio, SHOULDER_IMBALANCE);
    LadderMonotone(Finite(Magnitude(f.headTiltAngle)), Finite(Magnitude(g.headTiltAngle)), HEAD_TILT);
    LadderMonotone(Abs(f.shoulderProtraction), Abs(g.shoulderProtraction), PROTRACTION);
    LadderMonotone(f.spinalDeviation, g.spinalDeviation, SPINAL_DEVIATION);
    LadderMonotone(Finite(BandDistance(f.neckAngle)), Finite(BandDistance(g.neckAngle)), Ladder(0.0, 5.0, 10.0));
    PostureScoreAntitone(SeverityScore(IssuesOf(f)), SeverityScore(IssuesOf(g)), confidence);
  }

  datatype Assessment = Excellent | Good | Fair | Poor | Critical

  /** The assessment bands: 90, 75, 60 and 40 are the lower bounds of the first four. */
  function Assess(score: int): (a: Assessment)
    ensures a == Excellent <==> score >= 90
    ensures a == Good <==> 75 <= score < 90
    ensures a == Fair <==> 60 <= score < 75
    ensures a == Poor <==> 40 <= score < 60
    ensures a == Critical <==> score < 40
  {
    if score >= 90 then Excellent
    else if score >= 75 then Good
    else if score >= 60 then Fair
    else if score >= 40 then Poor
    else Critical
  }

  function Label(a: Assessment): string {
    match a
    case Excellent => "Excellent"
    case Good => "Good"
    case Fair => "Fair"
    case Poor => "Poor"
    case Critical => "Critical"
  }

  function QualityColor(a: Assessment): string {
    match a
    case Excellent => "#34C759"
    case Good => "#30D158"
    case Fair => "#FF9500"
    case Poor => "#FF6B35"
    case Critical => "#FF3B30"
  }

  function StatusMessage(a: Assessment): string {
    match a
    case Excellent => "Outstanding posture! Keep up the great work."
    case Good => "Good posture with minor areas for improvement."
    case Fair => "Moderate posture issues detected. Focus on corrections."
    case Poor => "Multiple posture problems. Consistent effort needed."
    case Critical => "Severe posture issues. Consider professional help."
  }

  /** 0 for Excellent up to 4 for Critical. */
  function Badness(a: Assessment): nat {
    match a
    case Excellent => 0
    case Good => 1
    case Fair => 2
    case Poor => 3
    case Critical => 4
  }

  /** A higher score never gets a worse assessment. */
  lemma AssessMonotone(s1: int, s2: int)
    requires s1 <= s2
    ensures Badness(Assess(s2)) <= Badness(Assess(s1))
  {
  }

  /**
   * Scenario: a frame with no issue whose key landmarks are all at most half
   * visible scores exactly 50 and is assessed Poor; a fully visible one with no
   * issue scores 100 and is Excellent.
   */
  lemma ConfidenceAloneDecidesAnIssueFreeFrame(lms: seq<Landmark>)
    requires forall i :: 0 <= i < |KEY_LANDMARKS| ==> VisibilityAt(lms, KEY_LANDMARKS[i]) <= 0.5
    ensures PostureScore(0, OverallConfidence(lms)) == 50 && Assess(50) == Poor
  {
    ConfidenceFloor(lms);
  }

  lemma FullConfidenceWithoutIssues()
    ensures PostureScore(0, 1.0) == 100 && Assess(100) == Excellent
  {
  }
}
