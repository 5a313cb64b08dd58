/**
 * The client scorer's entry point, `analyzePostureFromLandmarks` (App.js):
 * it rejects a frame with fewer than 33 landmarks, then fills in the
 * measurements and the issue list check by check and derives the score and
 * the assessment.
 */
module PostureAnalysis {
  import opened Wrappers
  import opened JsNumber
  import opened Geometry
  import opened Pose
  import opened FeatureExtractor
  import opened IssueDetector
  import opened ScoreAggregator

  const INSUFFICIENT_LANDMARKS: string := "Insufficient landmarks detected"

  datatype Analysis = Analysis(
    landmarksCount: nat,
    confidence: real,
    measurements: map<string, Num>,
    issues: seq<Issue>,
    postureScore: int,
    overallAssessment: string,
    qualityColor: string,
    statusMessage: string)

  const MEASUREMENT_KEYS: set<string> := {
    "head_forward_ratio", "shoulder_imbalance_ratio", "head_tilt_degrees",
    "shoulder_protraction", "spinal_deviation", "neck_angle"}

  /** The six recorded measurements: the tilt as a magnitude, the protraction signed. */
  function MeasurementsOf(f: Features): (m: map<string, Num>)
    ensures m.Keys == MEASUREMENT_KEYS
  {
    map[
      "head_forward_ratio" := f.headForwardRatio,
      "shoulder_imbalance_ratio" := f.shoulderImbalanceRatio,
      "head_tilt_degrees" := Finite(Magnitude(f.headTiltAngle)),
      "shoulder_protraction" := f.shoulderProtraction,
      "spinal_deviation" := f.spinalDeviation,
      "neck_angle" := Finite(f.neckAngle)]
  }

  /** `if (<check emits>) analysis.issues.push(<its issue>)` */
  method Push(issues: seq<Issue>, found: Option<Issue>) returns (updated: seq<Issue>)
    ensures updated == issues + AsSeq(found)
  {
    updated := issues;
    if found.Some? {
      updated := updated + [found.value];
    }
  }

  method AnalyzePostureFromLandmarks(landmarks: Option<seq<Landmark>>, t: Transcendentals) returns (r: Result<Analysis, string>)
    ensures r.Failure? <==> landmarks.None? || |landmarks.value| < MIN_LANDMARKS
    ensures r.Failure? ==> r.error == INSUFFICIENT_LANDMARKS
    ensures r.Success? ==>
      var lms := landmarks.value;
      var f := FeaturesOf(lms, t);
      var a := r.value;
      && a.landmarksCount == |lms|
      && a.confidence == OverallConfidence(lms)
      && a.measurements == MeasurementsOf(f)
      && a.issues == IssuesOf(f)
      && a.postureScore == PostureScore(SeverityScore(a.issues), a.confidence)
      && a.overallAssessment == Label(Assess(a.postureScore))
      && a.qualityColor == QualityColor(Assess(a.postureScore))
      && a.statusMessage == StatusMessage(Assess(a.postureScore))
    ensures r.Success? ==> 0 <= r.value.postureScore <= 100 && 0.5 <= r.value.confidence <= 1.0
    ensures r.Success? ==> |r.value.issues| <= MAX_POSSIBLE_ISSUES && r.value.measurements.Keys == MEASUREMENT_KEYS
  {
    if landmarks.None? || |landmarks.value| < MIN_LANDMARKS {
      return Failure(INSUFFICIENT_LANDMARKS);
    }
    var lms := landmarks.value;
    var f := FeaturesOf(lms, t);

    var confidence := OverallConfidence(lms);
    var measurements: map<string, Num> := map[];
    var issues: seq<Issue> := [];

    // 1. forward head posture
    var headForwardRatio := HeadForwardRatio(lms);
    measurements := measurements["head_forward_ratio" := headForwardRatio];
    var forwardHead := ForwardHeadCheck(headForwardRatio);
    issues := Push(issues, forwardHead);
    assert issues == AsSeq(forwardHead);

    // 2. shoulder height imbalance
    var shoulderImbalanceRatio := ShoulderImbalanceRatio(lms);
    measurements := measurements["shoulder_imbalance_ratio" := shoulderImbalanceRatio];
    var shoulders := ShoulderCheck(shoulderImbalanceRatio, LeftShoulderHigher(lms));
    issues := Push(issues, shoulders);
    assert issues == AsSeq(forwardHead) + AsSeq(shoulders);

    // 3. head tilt
    var headTiltAngle := HeadTiltAngle(lms, t);
    measurements := measurements["head_tilt_degrees" := Finite(Magnitude(headTiltAngle))];
    var tilt := HeadTiltCheck(headTiltAngle);
    issues := Push(issues, tilt);
    assert issues == AsSeq(forwardHead) + AsSeq(shoulders) + AsSeq(tilt);

    // 4. rounded shoulders
    var shoulderProtraction := ShoulderProtraction(lms);
    measurements := measurements["shoulder_protraction" := shoulderProtraction];
    var rounded := RoundedShouldersCheck(shoulderProtraction);
    issues := Push(issues, rounded);
    assert issues == AsSeq(forwardHead) + AsSeq(shoulders) + AsSeq(tilt) + AsSeq(rounded);

    // 5. spinal alignment
    var totalDeviation := SpinalDeviation(SpinalPoints(lms), t);
    measurements := measurements["spinal_deviation" := totalDeviation];
    var spine := SpinalCheck(totalDeviation);
    issues := Push(issues, spine);
    assert issues == AsSeq(forwardHead) + AsSeq(shoulders) + AsSeq(tilt) + AsSeq(rounded) + AsSeq(spine);

    // 6. cervical curve
    var neckAngle := NeckAngle(MidEar(lms), MidShoulder(lms), PointOf(lms[NOSE]), t);
    measurements := measurements["neck_angle" := Finite(neckAngle)];
    var cervical := CervicalCheck(neckAngle);
    issues := Push(issues, cervical);
    assert issues == AsSeq(forwardHead) + AsSeq(shoulders) + AsSeq(tilt) + AsSeq(rounded) + AsSeq(spine) + AsSeq(cervical);

    assert f == Features(headForwardRatio, shoulderImbalanceRatio, LeftShoulderHigher(lms), headTiltAngle,
                         shoulderProtraction, totalDeviation, neckAngle);
    IssuesInCheckOrder(f);
    assert measurements == MeasurementsOf(f);

    var severityScore := SeverityScore(issues);
    var postureScore := PostureScore(severityScore, confidence);
    SeverityScoreOfFrame(f);
    PostureScoreRange(severityScore, confidence);
    var assessment := Assess(postureScore);
    r := Success(Analysis(|lms|, confidence, measurements, issues, postureScore,
                          Label(assessment), QualityColor(assessment), StatusMessage(assessment)));
  }

  /**
   * The division policy at work: an ear level with the shoulders but offset
   * horizontally gives an infinite forward-head ratio, reported as severe;
   * with no offset at all the ratio is NaN and nothing is reported.
   */
  lemma LevelEarAndShoulder(lms: seq<Landmark>)
    requires |lms| >= MIN_LANDMARKS
    requires MidEar(lms).y == MidShoulder(lms).y
    ensures MidEar(lms).x != MidShoulder(lms).x ==>
      HeadForwardRatio(lms) == PosInfinity && ForwardHeadCheck(HeadForwardRatio(lms)).value.severity == Severe
    ensures MidEar(lms).x == MidShoulder(lms).x ==>
      HeadForwardRatio(lms) == NaN && ForwardHeadCheck(HeadForwardRatio(lms)) == None
  {
    LadderSpecialValues(FORWARD_HEAD);
  }

  /**
   * Shoulders at the same x: zero shoulder width makes the protraction
   * infinite (or NaN when the mid-shoulder is directly above the mid-hip, at
   * the same x),
   * and an infinite protraction is a severe rounded-shoulders issue.
   */
  lemma CoincidentShoulders(lms: seq<Landmark>)
    requires |lms| >= MIN_LANDMARKS
    requires PointOf(lms[LEFT_SHOULDER]).x == PointOf(lms[RIGHT_SHOULDER]).x
    ensures MidShoulder(lms).x != MidHip(lms).x ==>
      Abs(ShoulderProtraction(lms)) == PosInfinity && RoundedShouldersCheck(ShoulderProtraction(lms)).value.severity == Severe
    ensures MidShoulder(lms).x == MidHip(lms).x ==> RoundedShouldersCheck(ShoulderProtraction(lms)) == None
  {
    LadderSpecialValues(PROTRACTION);
  }
}
