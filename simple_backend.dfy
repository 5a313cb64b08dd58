/**
 * posture_backend/app.py: the same frame analysis with signed forward-head
 * and slouch offsets, the issue-count score and a fixed placeholder
 * prediction.
 */
module PostureApp {
  import opened Wrappers
  import opened JsNumber
  import opened Geometry
  import opened Pose
  import opened BackendReport
  import WorkingPostureApp

  const NO_POSE_DETECTED: string := "No pose detected in image"

  /** The prediction reported in place of a trained model's. */
  const PLACEHOLDER_PREDICTION: MlPrediction := MlPrediction(0.5, 0, "Analysis based on pose landmarks only", 0.0)

  /**
   * `analyze_posture` after pose detection. Unlike the working backend, the
   * forward-head and slouch readings keep their sign, so only an offset
   * towards larger x can raise those two flags.
   */
  function AnalyzePosture(landmarks: Option<seq<Landmark>>, t: Transcendentals): (r: Option<Analysis>)
    ensures r.Some? <==> landmarks.Some? && Covers(landmarks.value)
    ensures r.Some? ==> FlagsMatchReadings(r.value)
    ensures r.Some? ==>
      && r.value.shoulderImbalance >= 0.0 && r.value.headTilt >= 0.0
      && r.value.totalMisalignment == Magnitude(r.value.forwardHeadDistance) + Magnitude(r.value.slouchDistance)
    // the two offsets keep their sign; the other readings are as in the working backend
    ensures r.Some? ==>
      var lms := landmarks.value;
      && r.value.forwardHeadDistance == MidEar(lms).x - MidShoulder(lms).x
      && r.value.shoulderImbalance == Magnitude(lms[LEFT_SHOULDER].y - lms[RIGHT_SHOULDER].y)
      && r.value.headTilt == Magnitude(t.atan2(lms[RIGHT_EAR].y - lms[LEFT_EAR].y, lms[RIGHT_EAR].x - lms[LEFT_EAR].x))
      && r.value.slouchDistance == MidShoulder(lms).x - MidHip(lms).x
      && NeckReading(r.value.neckAngle, r.value.neckAngleBinary) == NeckReadingOf(MidEar(lms), MidShoulder(lms), MidHip(lms), t)
  {
    if landmarks.None? || !Covers(landmarks.value) then None
    else
      var lms := landmarks.value;
      var midEar := MidEar(lms);
      var midShoulder := MidShoulder(lms);
      var midHip := MidHip(lms);
      var forwardHead := midEar.x - midShoulder.x;
      var shoulderDiff := Magnitude(lms[LEFT_SHOULDER].y - lms[RIGHT_SHOULDER].y);
      var tilt := Magnitude(t.atan2(lms[RIGHT_EAR].y - lms[LEFT_EAR].y, lms[RIGHT_EAR].x - lms[LEFT_EAR].x));
      var slouch := midShoulder.x - midHip.x;
      var misalignment := Magnitude(midEar.x - midShoulder.x) + Magnitude(midShoulder.x - midHip.x);
      Some(Assemble(forwardHead, shoulderDiff, tilt, slouch, misalignment, NeckReadingOf(midEar, midShoulder, midHip, t)))
  }

  /**
   * Against the working backend on the same landmarks: every reading but the
   * two signed offsets agrees; the two flags can only be lower, and differ
   * exactly when the offset is negative beyond the limit; so this backend
   * never counts more issues and never scores lower.
   */
  lemma SignedOffsetsAgainstWorkingBackend(lms: seq<Landmark>, t: Transcendentals)
    requires Covers(lms)
    ensures var s := AnalyzePosture(Some(lms), t).value;
      var w := WorkingPostureApp.AnalyzePosture(Some(lms), t).value;
      && w.forwardHeadDistance == Magnitude(s.forwardHeadDistance)
      && w.slouchDistance == Magnitude(s.slouchDistance)
      && s.forwardHeadBinary <= w.forwardHeadBinary && s.slouchingBinary <= w.slouchingBinary
      && (s.forwardHeadBinary != w.forwardHeadBinary <==> MidEar(lms).x - MidShoulder(lms).x < -FORWARD_HEAD_LIMIT)
      && (s.slouchingBinary != w.slouchingBinary <==> MidShoulder(lms).x - MidHip(lms).x < -SLOUCH_LIMIT)
      && s.shoulderImbalance == w.shoulderImbalance && s.shoulderImbalanceBinary == w.shoulderImbalanceBinary
      && s.headTilt == w.headTilt && s.headTiltBinary == w.headTiltBinary
      && s.totalMisalignment == w.totalMisalignment && s.alignmentBinary == w.alignmentBinary
      && s.neckAngle == w.neckAngle && s.neckAngleBinary == w.neckAngleBinary
      && TotalIssues(s) <= TotalIssues(w)
      && PostureScore(TotalIssues(w)) <= PostureScore(TotalIssues(s))
  {
    var s := AnalyzePosture(Some(lms), t).value;
    var w := WorkingPostureApp.AnalyzePosture(Some(lms), t).value;
    PostureScoreAntitone(TotalIssues(s), TotalIssues(w));
  }

  /**
   * Mid-ear 0.2 to the left of the mid-shoulder: the working backend flags a
   * forward head, this one does not.
   */
  lemma LeftwardHeadIsNotFlagged(lms: seq<Landmark>, t: Transcendentals)
    requires Covers(lms)
    requires MidEar(lms).x == 0.3 && MidShoulder(lms).x == 0.5
    ensures AnalyzePosture(Some(lms), t).value.forwardHeadBinary == 0
    ensures WorkingPostureApp.AnalyzePosture(Some(lms), t).value.forwardHeadBinary == 1
  {
    SignedOffsetsAgainstWorkingBackend(lms, t);
  }

  /** The `/analyze-posture` endpoint once the upload is decoded. */
  method AnalyzeFrame(landmarks: Option<seq<Landmark>>, t: Transcendentals) returns (r: Result<Report, string>)
    ensures r.Failure? <==> AnalyzePosture(landmarks, t).None?
    ensures r.Failure? ==> r.error == NO_POSE_DETECTED
    ensures r.Success? ==>
      var a := AnalyzePosture(landmarks, t).value;
      && r.value.measurements == a
      && r.value.totalIssues == TotalIssues(a) <= 6
      && r.value.issues == Texts(Raised(a))
      && r.value.recommendations == Advices(Raised(a))
      && r.value.postureScore == PostureScore(TotalIssues(a))
      && r.value.mlPrediction == PLACEHOLDER_PREDICTION
  {
    var analysis := AnalyzePosture(landmarks, t);
    if analysis.None? {
      return Failure(NO_POSE_DETECTED);
    }
    var a := analysis.value;
    var mlPrediction := PLACEHOLDER_PREDICTION;
    var issues, recommendations := IssuesAndRecommendations(a);
    var totalIssues := TotalIssues(a);
    var postureScore := PostureScore(totalIssues);
    r := Success(Report(postureScore, mlPrediction, issues, recommendations, a, totalIssues));
  }
}
