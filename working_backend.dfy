/**
 * posture_backend/working_posture_app.py: the frame analysis with absolute
 * offsets, the issue-count score and the score-derived prediction of the
 * `/analyze-posture` endpoint.
 */
module WorkingPostureApp {
  import opened Wrappers
  import opened JsNumber
  import opened Geometry
  import opened Pose
  import opened BackendReport

  const NO_POSE_DETECTED: string :=
    "No pose detected in image. Make sure the person is clearly visible and facing the camera."

  /**
   * `analyze_posture` after pose detection: `None` when no pose was found or
   * a needed landmark index is missing (the `IndexError` is caught), else the
   * six readings with their flags. The tilt is the ear line's angle in radians.
   */
  function AnalyzePosture(landmarks: Option<seq<Landmark>>, t: Transcendentals): (r: Option<Analysis>)
    ensures r.Some? <==> landmarks.Some? && Covers(landmarks.value)
    ensures r.Some? ==> FlagsMatchReadings(r.value)
    ensures r.Some? ==>
      && r.value.forwardHeadDistance >= 0.0 && r.value.slouchDistance >= 0.0
      && r.value.shoulderImbalance >= 0.0 && r.value.headTilt >= 0.0
      && r.value.totalMisalignment == r.value.forwardHeadDistance + r.value.slouchDistance
    // each reading is its landmark measurement, taken without sign
    ensures r.Some? ==>
      var lms := landmarks.value;
      && r.value.forwardHeadDistance == Magnitude(MidEar(lms).x - MidShoulder(lms).x)
      && r.value.shoulderImbalance == Magnitude(lms[LEFT_SHOULDER].y - lms[RIGHT_SHOULDER].y)
      && r.value.headTilt == Magnitude(t.atan2(lms[RIGHT_EAR].y - lms[LEFT_EAR].y, lms[RIGHT_EAR].x - lms[LEFT_EAR].x))
      && r.value.slouchDistance == Magnitude(MidShoulder(lms).x - MidHip(lms).x)
      && NeckReading(r.value.neckAngle, r.value.neckAngleBinary) == NeckReadingOf(MidEar(lms), MidShoulder(lms), MidHip(lms), t)
  {
    if landmarks.None? || !Covers(landmarks.value) then None
    else
      var lms := landmarks.value;
      var midEar := MidEar(lms);
      var midShoulder := MidShoulder(lms);
      var midHip := MidHip(lms);
      var forwardHead := Magnitude(midEar.x - midShoulder.x);
      var shoulderDiff := Magnitude(lms[LEFT_SHOULDER].y - lms[RIGHT_SHOULDER].y);
      var tilt := Magnitude(t.atan2(lms[RIGHT_EAR].y - lms[LEFT_EAR].y, lms[RIGHT_EAR].x - lms[LEFT_EAR].x));
      var slouch := Magnitude(midShoulder.x - midHip.x);
      var misalignment := Magnitude(midEar.x - midShoulder.x) + Magnitude(midShoulder.x - midHip.x);
      Some(Assemble(forwardHead, shoulderDiff, tilt, slouch, misalignment, NeckReadingOf(midEar, midShoulder, midHip, t)))
  }

  /** A forward head together with slouching always counts as poor alignment too. */
  lemma FlaggedPairRaisesAlignment(lms: seq<Landmark>, t: Transcendentals)
    requires Covers(lms)
    requires AnalyzePosture(Some(lms), t).value.forwardHeadBinary == 1
    requires AnalyzePosture(Some(lms), t).value.slouchingBinary == 1
    ensures AnalyzePosture(Some(lms), t).value.alignmentBinary == 1
  {
    ForwardHeadAndSlouchImplyMisalignment(AnalyzePosture(Some(lms), t).value);
  }

  /** The `ml_prediction` derived from the score. */
  function Prediction(score: real): (p: MlPrediction)
    ensures p.binaryPrediction == 1 <==> score >= 80.0
    ensures p.postureQuality == "Good" <==> score >= 80.0
    ensures p.postureQuality == "Fair" <==> 60.0 <= score < 80.0
    ensures p.postureQuality == "Poor" <==> score < 60.0
    ensures p.probability * 100.0 == score
    ensures p.confidence >= 0.7 && p.confidence >= p.probability
    ensures p.confidence == 0.7 || p.confidence == p.probability
  {
    var quality := if score >= 80.0 then "Good" else if score >= 60.0 then "Fair" else "Poor";
    MlPrediction(score / 100.0, if score >= 80.0 then 1 else 0, quality, Max(0.7, score / 100.0))
  }

  /**
   * In terms of raised flags: at most one is Good (binary prediction 1), two
   * is Fair, three or more is Poor; probability and confidence lie in 0..1.
   */
  lemma PredictionByIssueCount(n: nat)
    ensures var p := Prediction(PostureScore(n));
      && (p.binaryPrediction == 1 <==> n <= 1)
      && (p.postureQuality == "Good" <==> n <= 1)
      && (p.postureQuality == "Fair" <==> n == 2)
      && (p.postureQuality == "Poor" <==> n >= 3)
      && 0.0 <= p.probability <= 1.0 && 0.7 <= p.confidence <= 1.0
  {
    var s := PostureScore(n);
    if n >= 3 {
      assert s <= 100.0 - 3.0 * ISSUE_PENALTY;
    }
  }

  /**
   * The `/analyze-posture` endpoint once the upload is decoded: a 400 error when no
   * pose is found, else the report with issues, recommendations, score and
   * prediction.
   */
  method AnalyzeFrame(landmarks: Option<seq<Landmark>>, t: Transcendentals) returns (r: Result<Report, string>)
    ensures r.Failure? <==> AnalyzePosture(landmarks, t).None?
    ensures r.Failure? ==> r.error == NO_POSE_DETECTED
    ensures r.Success? ==>
      var a := AnalyzePosture(landmarks, t).value;
      && r.value.measurements == a
      && r.value.totalIssues == TotalIssues(a)
      && r.value.issues == Texts(Raised(a))
      && r.value.recommendations == Advices(Raised(a))
      && r.value.postureScore == PostureScore(TotalIssues(a))
      && r.value.mlPrediction == Prediction(r.value.postureScore)
    ensures r.Success? ==> (r.value.mlPrediction.binaryPrediction == 1 <==> r.value.totalIssues <= 1)
  {
    var analysis := AnalyzePosture(landmarks, t);
    if analysis.None? {
      return Failure(NO_POSE_DETECTED);
    }
    var a := analysis.value;
    var issues, recommendations := IssuesAndRecommendations(a);
    var totalIssues := TotalIssues(a);
    var postureScore := PostureScore(totalIssues);
    var mlPrediction := Prediction(postureScore);
    PredictionByIssueCount(totalIssues);
    r := Success(Report(postureScore, mlPrediction, issues, recommendations, a, totalIssues));
  }
}
