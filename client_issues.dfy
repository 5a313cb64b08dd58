/**
 * The client scorer's issue detector (App.js, the six checks of
 * `analyzePostureFromLandmarks`): threshold ladders, issue records with their
 * fixed impact and recommendation tables, and the fixed evaluation order.
 */
module IssueDetector {
  import opened Wrappers
  import opened JsNumber
  import opened FeatureExtractor

  datatype Severity = Mild | Moderate | Severe

  /** The weight of a severity in the posture score. */
  function Weight(s: Severity): (w: nat)
    ensures 1 <= w <= 3
  {
    match s
    case Mild => 1
    case Moderate => 2
    case Severe => 3
  }

  datatype IssueType = ForwardHeadPosture | ShoulderImbalance | HeadTilt | RoundedShoulders | SpinalMisalignment | CervicalCurve

  /** The position of each check in the detector's evaluation order. */
  function Ordinal(k: IssueType): nat {
    match k
    case ForwardHeadPosture => 0
    case ShoulderImbalance => 1
    case HeadTilt => 2
    case RoundedShoulders => 3
    case SpinalMisalignment => 4
    case CervicalCurve => 5
  }

  datatype Side = Left | Right

  function SideName(s: Side): string {
    if s == Left then "left" else "right"
  }

  function Opposite(s: Side): Side {
    if s == Left then Right else Left
  }

  datatype TiltDirection = Clockwise | Counterclockwise

  datatype CervicalCondition = LossOfLordosis | ExcessiveExtension

  /** What an issue's description says beyond its type and measurement. */
  datatype Detail = NoDetail | Elevated(side: Side) | Tilted(direction: TiltDirection) | Curve(condition: CervicalCondition)

  /**
   * An entry of the issue list. Its `impact` and `recommendations` fields are
   * fixed by type, severity and detail, so they are the functions `ImpactOf`
   * and `RecommendationsOf` below rather than stored strings.
   */
  datatype Issue = Issue(
    kind: IssueType,
    severity: Severity,
    detail: Detail,
    measurement: Num)

  /** An issue is emitted above `emitAbove`; it is moderate above `moderateAbove` and severe above `severeAbove`. */
  datatype Ladder = Ladder(emitAbove: real, moderateAbove: real, severeAbove: real)

  const FORWARD_HEAD: Ladder := Ladder(0.15, 0.25, 0.35)
  const SHOULDER_IMBALANCE: Ladder := Ladder(0.08, 0.14, 0.20)
  const HEAD_TILT: Ladder := Ladder(5.0, 10.0, 15.0)
  const PROTRACTION: Ladder := Ladder(0.12, 0.18, 0.25)
  const SPINAL_DEVIATION: Ladder := Ladder(0.08, 0.12, 0.15)

  /** `x > severe ? 'severe' : x > moderate ? 'moderate' : 'mild'` */
  function Grade(x: Num, l: Ladder): Severity {
    if Above(x, l.severeAbove) then Severe
    else if Above(x, l.moderateAbove) then Moderate
    else Mild
  }

  function Classify(x: Num, l: Ladder): Option<Severity> {
    if Above(x, l.emitAbove) then Some(Grade(x, l)) else None
  }

  /** The weight a check adds to the severity score: 0 when it emits nothing. */
  function Rank(o: Option<Severity>): nat {
    if o.None? then 0 else Weight(o.value)
  }

  /** On an increasing ladder, a finite measurement lands in exactly one band of the threshold table. */
  lemma LadderBands(v: real, l: Ladder)
    requires l.emitAbove <= l.moderateAbove <= l.severeAbove
    ensures Classify(Finite(v), l) == None <==> v <= l.emitAbove
    ensures Classify(Finite(v), l) == Some(Mild) <==> l.emitAbove < v <= l.moderateAbove
    ensures Classify(Finite(v), l) == Some(Moderate) <==> l.moderateAbove < v <= l.severeAbove
    ensures Classify(Finite(v), l) == Some(Severe) <==> v > l.severeAbove
  {
  }

  /** A larger measurement never gets a lower severity, on any ladder. */
  lemma LadderMonotone(a: Num, b: Num, l: Ladder)
    requires AtMost(a, b)
    ensures Rank(Classify(a, l)) <= Rank(Classify(b, l))
  {
    if Above(a, l.emitAbove) {
      AboveUpward(a, b, l.emitAbove);
      if Above(a, l.severeAbove) { AboveUpward(a, b, l.severeAbove); }
      if Above(a, l.moderateAbove) { AboveUpward(a, b, l.moderateAbove); }
    }
  }

  /** A zero denominator: a positive numerator gives +Infinity, which is severe; 0/0 is NaN, which emits nothing. */
  lemma LadderSpecialValues(l: Ladder)
    ensures Classify(PosInfinity, l) == Some(Severe)
    ensures Classify(NaN, l) == None && Classify(NegInfinity, l) == None
  {
  }

  /** The impact text of an issue, fixed by its type and severity. */
  function Impact(k: IssueType, s: Severity): string {
    match k
    case ForwardHeadPosture =>
      if s == Severe then "High risk of neck strain and headaches"
      else if s == Moderate then "Moderate neck tension likely"
      else "Mild postural deviation"
    case ShoulderImbalance =>
      if s == Severe then "Significant muscle imbalance, potential for chronic pain"
      else if s == Moderate then "Noticeable asymmetry, muscle compensation patterns"
      else "Minor imbalance"
    case HeadTilt =>
      if s == Severe then "High risk of cervical strain and muscle tension"
      else if s == Moderate then "Moderate neck muscle imbalance"
      else "Minor head positioning issue"
    case RoundedShoulders =>
      if s == Severe then "High risk of thoracic kyphosis and shoulder impingement"
      else if s == Moderate then "Increased upper back tension and reduced lung capacity"
      else "Mild postural deviation"
    case SpinalMisalignment =>
      if s == Severe then "Significant postural dysfunction, multiple compensation patterns"
      else if s == Moderate then "Moderate postural imbalance affecting multiple regions"
      else "Minor alignment issues"
    case CervicalCurve =>
      if s == Severe then "High risk of disc problems and nerve compression"
      else if s == Moderate then "Increased cervical spine stress"
      else "Minor cervical curve variation"
  }

  const FORWARD_HEAD_ADVICE: seq<string> := [
    "Perform chin tuck exercises (10 reps, 3 times daily)",
    "Raise screen to eye level",
    "Take posture breaks every 20 minutes",
    "Strengthen deep neck flexor muscles",
    "Sleep with proper pillow support"]

  function ShoulderAdvice(elevated: Side): seq<string> {
    [ "Stretch the elevated " + SideName(elevated) + " shoulder and neck",
      "Strengthen the lower " + SideName(Opposite(elevated)) + " shoulder",
      "Check bag carrying habits and workspace setup",
      "Practice shoulder blade squeezes",
      "Consider professional assessment if severe"]
  }

  const HEAD_TILT_ADVICE: seq<string> := [
    "Practice head leveling exercises",
    "Check monitor and workspace positioning",
    "Stretch tight neck muscles on the shortened side",
    "Strengthen weak neck muscles on the lengthened side",
    "Be conscious of phone and reading posture"]

  const ROUNDED_SHOULDERS_ADVICE: seq<string> := [
    "Perform doorway chest stretches (30 seconds, 3x daily)",
    "Strengthen rhomboids and middle trapezius",
    "Practice wall slides exercise",
    "Adjust workstation ergonomics",
    "Focus on opening chest throughout the day"]

  const SPINAL_ADVICE: seq<string> := [
    "Practice wall posture exercises daily",
    "Focus on stacking head over shoulders over hips",
    "Strengthen postural support muscles",
    "Consider ergonomic assessment",
    "Maintain awareness of posture throughout day"]

  function CervicalAdvice(c: CervicalCondition): seq<string> {
    [ if c == LossOfLordosis then "Practice cervical extension exercises" else "Focus on chin tuck movements",
      "Maintain neutral spine during activities",
      "Use proper pillow support while sleeping",
      "Consider physiotherapy evaluation",
      "Avoid prolonged neck flexion/extension"]
  }

  /** The issue's `impact` field. */
  function ImpactOf(issue: Issue): string {
    Impact(issue.kind, issue.severity)
  }

  /** The side an issue's detail names as elevated; every shoulder issue carries one. */
  function ElevatedSide(d: Detail): Side {
    if d.Elevated? then d.side else Right
  }

  /** The condition an issue's detail names; every cervical issue carries one. */
  function CurveCondition(d: Detail): CervicalCondition {
    if d.Curve? then d.condition else ExcessiveExtension
  }

  /** The issue's `recommendations` field: five tips, fixed by its type and detail. */
  function RecommendationsOf(issue: Issue): (tips: seq<string>)
    ensures |tips| == 5
  {
    match issue.kind
    case ForwardHeadPosture => FORWARD_HEAD_ADVICE
    case ShoulderImbalance => ShoulderAdvice(ElevatedSide(issue.detail))
    case HeadTilt => HEAD_TILT_ADVICE
    case RoundedShoulders => ROUNDED_SHOULDERS_ADVICE
    case SpinalMisalignment => SPINAL_ADVICE
    case CervicalCurve => CervicalAdvice(CurveCondition(issue.detail))
  }

  /** The issue pushed by check 1, for a ratio above the emit threshold. */
  function ForwardHeadIssue(ratio: Num): Issue {
    var s := Grade(ratio, FORWARD_HEAD);
    Issue(ForwardHeadPosture, s, NoDetail, ratio)
  }

  function ShoulderIssue(ratio: Num, leftHigher: bool): Issue {
    var s := Grade(ratio, SHOULDER_IMBALANCE);
    var side := if leftHigher then Left else Right;
    Issue(ShoulderImbalance, s, Elevated(side), ratio)
  }

  function HeadTiltIssue(angle: real): Issue {
    var degrees := Finite(Magnitude(angle));
    var s := Grade(degrees, HEAD_TILT);
    var direction := if angle > 0.0 then Clockwise else Counterclockwise;
    Issue(HeadTilt, s, Tilted(direction), degrees)
  }

  function RoundedShouldersIssue(protraction: Num): Issue {
    var s := Grade(Abs(protraction), PROTRACTION);
    Issue(RoundedShoulders, s, NoDetail, Abs(protraction))
  }

  function SpinalIssue(deviation: Num): Issue {
    var s := Grade(deviation, SPINAL_DEVIATION);
    Issue(SpinalMisalignment, s, NoDetail, deviation)
  }

  /** The neck-angle ladder is two-sided: it widens from the normal band 35..55 outwards. */
  function CervicalSeverity(angle: real): (s: Severity)
    ensures s == Severe <==> angle < 25.0 || angle > 65.0
    ensures s == Moderate <==> (angle < 30.0 || angle > 60.0) && !(angle < 25.0 || angle > 65.0)
    ensures s == Mild <==> 30.0 <= angle <= 60.0
  {
    if angle < 25.0 || angle > 65.0 then Severe
    else if angle < 30.0 || angle > 60.0 then Moderate
    else Mild
  }

  function CervicalIssue(angle: real): Issue {
    var s := CervicalSeverity(angle);
    var condition := if angle < 35.0 then LossOfLordosis else ExcessiveExtension;
    Issue(CervicalCurve, s, Curve(condition), Finite(angle))
  }

  /** Check 1: forward head posture. */
  function ForwardHeadCheck(ratio: Num): (o: Option<Issue>)
    ensures o.Some? <==> Above(ratio, 0.15)
    ensures o.Some? ==> o.value.kind == ForwardHeadPosture && o.value.measurement == ratio
    ensures o.Some? ==> Classify(ratio, FORWARD_HEAD) == Some(o.value.severity)
  {
    if Above(ratio, FORWARD_HEAD.emitAbove) then Some(ForwardHeadIssue(ratio)) else None
  }

  /** Check 2: shoulder imbalance; the elevated side is the left one exactly when its y is smaller. */
  function ShoulderCheck(ratio: Num, leftHigher: bool): (o: Option<Issue>)
    ensures o.Some? <==> Above(ratio, 0.08)
    ensures o.Some? ==> o.value.kind == ShoulderImbalance && o.value.measurement == ratio
    ensures o.Some? ==> Classify(ratio, SHOULDER_IMBALANCE) == Some(o.value.severity)
    ensures o.Some? ==> o.value.detail.Elevated? && (o.value.detail.side == Left <==> leftHigher)
  {
    if Above(ratio, SHOULDER_IMBALANCE.emitAbove) then Some(ShoulderIssue(ratio, leftHigher)) else None
  }

  /** The stretch is for the elevated shoulder and the strengthening for the other one. */
  lemma ShoulderAdviceNamesBothSides(ratio: Num, leftHigher: bool)
    requires ShoulderCheck(ratio, leftHigher).Some?
    ensures var issue := ShoulderCheck(ratio, leftHigher).value;
      var side := issue.detail.side;
      && RecommendationsOf(issue)[0] == "Stretch the elevated " + SideName(side) + " shoulder and neck"
      && RecommendationsOf(issue)[1] == "Strengthen the lower " + SideName(Opposite(side)) + " shoulder"
      && SideName(side) != SideName(Opposite(side))
  {
  }

  /** Check 3: head tilt, on the magnitude of the signed eye-line angle in degrees. */
  function HeadTiltCheck(angle: real): (o: Option<Issue>)
    ensures o.Some? <==> Magnitude(angle) > 5.0
    ensures o.Some? ==> o.value.kind == HeadTilt && o.value.measurement == Finite(Magnitude(angle))
    ensures o.Some? ==> Classify(Finite(Magnitude(angle)), HEAD_TILT) == Some(o.value.severity)
    ensures o.Some? ==> (o.value.detail == Tilted(Clockwise) <==> angle > 0.0) && o.value.detail.Tilted?
  {
    if Above(Finite(Magnitude(angle)), HEAD_TILT.emitAbove) then Some(HeadTiltIssue(angle)) else None
  }

  /** Check 4: rounded shoulders, on the magnitude of the signed protraction. */
  function RoundedShouldersCheck(protraction: Num): (o: Option<Issue>)
    ensures o.Some? <==> Above(Abs(protraction), 0.12)
    ensures o.Some? ==> o.value.kind == RoundedShoulders && o.value.measurement == Abs(protraction)
    ensures o.Some? ==> Classify(Abs(protraction), PROTRACTION) == Some(o.value.severity)
  {
    if Above(Abs(protraction), PROTRACTION.emitAbove) then Some(RoundedShouldersIssue(protraction)) else None
  }

  /** Check 5: spinal misalignment. */
  function SpinalCheck(deviation: Num): (o: Option<Issue>)
    ensures o.Some? <==> Above(deviation, 0.08)
    ensures o.Some? ==> o.value.kind == SpinalMisalignment && o.value.measurement == deviation
    ensures o.Some? ==> Classify(deviation, SPINAL_DEVIATION) == Some(o.value.severity)
  {
    if Above(deviation, SPINAL_DEVIATION.emitAbove) then Some(SpinalIssue(deviation)) else None
  }

  /** Check 6: the cervical curve; condition and first recommendation depend on whether the angle is below 35. */
  function CervicalCheck(angle: real): (o: Option<Issue>)
    ensures o.Some? <==> angle < 35.0 || angle > 55.0
    ensures o.Some? ==> o.value.kind == CervicalCurve && o.value.measurement == Finite(angle)
    ensures o.Some? ==> o.value.severity == CervicalSeverity(angle)
    ensures o.Some? ==> (o.value.detail == Curve(LossOfLordosis) <==> angle < 35.0) && o.value.detail.Curve?
  {
    if angle < 35.0 || angle > 55.0 then Some(CervicalIssue(angle)) else None
  }

  /** A flattened curve is answered with extension exercises, an over-extended one with chin tucks. */
  lemma CervicalAdviceFollowsCondition(angle: real)
    requires CervicalCheck(angle).Some?
    ensures RecommendationsOf(CervicalCheck(angle).value)[0] ==
      (if angle < 35.0 then "Practice cervical extension exercises" else "Focus on chin tuck movements")
  {
  }

  /** How far a neck angle lies outside the normal band 35..55 degrees. */
  function BandDistance(angle: real): (d: real)
    ensures d >= 0.0
    ensures d == 0.0 <==> 35.0 <= angle <= 55.0
  {
    if angle < 35.0 then 35.0 - angle else if angle > 55.0 then angle - 55.0 else 0.0
  }

  /** The weight a check contributes to the severity score. */
  function IssueWeight(o: Option<Issue>): nat {
    if o.None? then 0 else Weight(o.value.severity)
  }

  /**
   * The two-sided cervical ladder is an ordinary ladder on the distance from
   * the normal band, with thresholds 0, 5 and 10 degrees on either side.
   */
  lemma CervicalIsLadderOnBandDistance(angle: real)
    ensures IssueWeight(CervicalCheck(angle)) == Rank(Classify(Finite(BandDistance(angle)), Ladder(0.0, 5.0, 10.0)))
  {
  }

  /** The fallback neck angle of a degenerate neck lies in the normal band, so it emits nothing. */
  lemma DefaultNeckAngleIsNormal()
    ensures CervicalCheck(45.0) == None
  {
  }

  /** The check of issue type `k`. */
  function Check(f: Features, k: IssueType): Option<Issue> {
    match k
    case ForwardHeadPosture => ForwardHeadCheck(f.headForwardRatio)
    case ShoulderImbalance => ShoulderCheck(f.shoulderImbalanceRatio, f.leftShoulderHigher)
    case HeadTilt => HeadTiltCheck(f.headTiltAngle)
    case RoundedShoulders => RoundedShouldersCheck(f.shoulderProtraction)
    case SpinalMisalignment => SpinalCheck(f.spinalDeviation)
    case CervicalCurve => CervicalCheck(f.neckAngle)
  }

  /** Every check reports only its own type, exactly when its condition holds. */
  lemma CheckReportsItsType(f: Features, k: IssueType)
    ensures Check(f, k).Some? <==> Triggered(f, k)
    ensures Check(f, k).Some? ==> Check(f, k).value.kind == k
  {
    match k
    case ForwardHeadPosture =>
    case ShoulderImbalance =>
    case HeadTilt =>
    case RoundedShoulders =>
    case SpinalMisalignment =>
    case CervicalCurve =>
  }

  /** The six checks, in the detector's evaluation order. */
  function Checks(f: Features): seq<Option<Issue>> {
    [ Check(f, ForwardHeadPosture), Check(f, ShoulderImbalance), Check(f, HeadTilt),
      Check(f, RoundedShoulders), Check(f, SpinalMisalignment), Check(f, CervicalCurve)]
  }

  /** Slot `i` of the checks holds only an issue of the type with ordinal `i`, and is filled exactly when that type is triggered. */
  lemma ChecksInSlots(f: Features)
    ensures |Checks(f)| == 6
    ensures forall i :: 0 <= i < 6 && Checks(f)[i].Some? ==>
      Ordinal(Checks(f)[i].value.kind) == i
    ensures forall k :: Checks(f)[Ordinal(k)] == Check(f, k)
  {
    var cs := Checks(f);
    forall k
      ensures cs[Ordinal(k)] == Check(f, k)
    {
    }
    forall i | 0 <= i < 6 && cs[i].Some?
      ensures Ordinal(cs[i].value.kind) == i
    {
      var k := [ForwardHeadPosture, ShoulderImbalance, HeadTilt, RoundedShoulders, SpinalMisalignment, CervicalCurve][i];
      assert Ordinal(k) == i;
      CheckReportsItsType(f, k);
    }
  }

  function AsSeq(o: Option<Issue>): seq<Issue> {
    if o.Some? then [o.value] else []
  }

  /** The issues of the emitted checks, in check order, pushed one check at a time. */
  function Collect(os: seq<Option<Issue>>): seq<Issue>
    decreases |os|
  {
    if os == [] then [] else Collect(os[..|os| - 1]) + AsSeq(os[|os| - 1])
  }

  /** The issue list that `analysis.issues.push` builds. */
  function IssuesOf(f: Features): seq<Issue> {
    Collect(Checks(f))
  }

  /** The condition under which each check emits, as a reference independent of the issue records. */
  predicate Triggered(f: Features, k: IssueType) {
    match k
    case ForwardHeadPosture => Above(f.headForwardRatio, 0.15)
    case ShoulderImbalance => Above(f.shoulderImbalanceRatio, 0.08)
    case HeadTilt => Magnitude(f.headTiltAngle) > 5.0
    case RoundedShoulders => Above(Abs(f.shoulderProtraction), 0.12)
    case SpinalMisalignment => Above(f.spinalDeviation, 0.08)
    case CervicalCurve => f.neckAngle < 35.0 || f.neckAngle > 55.0
  }

  lemma {:induction false} CollectMembers(os: seq<Option<Issue>>, x: Issue)
    ensures x in Collect(os) <==> Some(x) in os
    decreases |os|
  {
    if os != [] {
      var p := os[..|os| - 1];
      CollectMembers(p, x);
      assert os == p + [os[|os| - 1]];
    }
  }

  lemma {:induction false} CollectLength(os: seq<Option<Issue>>)
    ensures |Collect(os)| <= |os|
    decreases |os|
  {
    if os != [] {
      CollectLength(os[..|os| - 1]);
    }
  }

  lemma {:induction false} CollectOrdered(os: seq<Option<Issue>>)
    requires forall i, j :: 0 <= i < j < |os| && os[i].Some? && os[j].Some? ==> Ordinal(os[i].value.kind) < Ordinal(os[j].value.kind)
    ensures forall i, j :: 0 <= i < j < |Collect(os)| ==> Ordinal(Collect(os)[i].kind) < Ordinal(Collect(os)[j].kind)
    decreases |os|
  {
    if os != [] {
      var n := |os| - 1;
      var p := os[..n];
      CollectOrdered(p);
      if os[n].Some? {
        var c := Collect(os);
        var cp := Collect(p);
        assert c == cp + [os[n].value];
        forall i, j | 0 <= i < j < |c|
          ensures Ordinal(c[i].kind) < Ordinal(c[j].kind)
        {
          if j == |cp| {
            assert c[i] == cp[i] && c[i] in cp;
            CollectMembers(p, c[i]);
            var k :| 0 <= k < |p| && p[k] == Some(c[i]);
            assert os[k] == Some(c[i]);
          }
        }
      }
    }
  }

  /**
   * The issue list has at most one issue per type, so at most six; they come
   * in the evaluation order forward head, shoulders, tilt, rounded shoulders,
   * spine, cervical curve.
   */
  lemma IssuesWellFormed(f: Features)
    ensures |IssuesOf(f)| <= 6
    ensures forall i, j :: 0 <= i < j < |IssuesOf(f)| ==> Ordinal(IssuesOf(f)[i].kind) < Ordinal(IssuesOf(f)[j].kind)
  {
    var cs := Checks(f);
    ChecksInSlots(f);
    CollectLength(cs);
    CollectOrdered(cs);
  }

  /** An issue of type `k` is reported exactly when its threshold condition holds. */
  lemma IssueReportedIff(f: Features, k: IssueType)
    ensures (exists x :: x in IssuesOf(f) && x.kind == k) <==> Triggered(f, k)
  {
    var cs := Checks(f);
    ChecksInSlots(f);
    CheckReportsItsType(f, k);
    var i := Ordinal(k);
    if Triggered(f, k) {
      assert cs[i].Some? && Ordinal(cs[i].value.kind) == i;
      CollectMembers(cs, cs[i].value);
    }
    if x :| x in IssuesOf(f) && x.kind == k {
      CollectMembers(cs, x);
      var j :| 0 <= j < 6 && cs[j] == Some(x);
      assert Ordinal(x.kind) == j;
    }
  }

  /** The issue list is the emitted checks' issues concatenated in check order. */
  lemma IssuesInCheckOrder(f: Features)
    ensures IssuesOf(f) ==
      AsSeq(ForwardHeadCheck(f.headForwardRatio))
      + AsSeq(ShoulderCheck(f.shoulderImbalanceRatio, f.leftShoulderHigher))
      + AsSeq(HeadTiltCheck(f.headTiltAngle))
      + AsSeq(RoundedShouldersCheck(f.shoulderProtraction))
      + AsSeq(SpinalCheck(f.spinalDeviation))
      + AsSeq(CervicalCheck(f.neckAngle))
  {
    CollectSix(Checks(f));
  }

  lemma CollectSix(cs: seq<Option<Issue>>)
    requires |cs| == 6
    ensures Collect(cs) == AsSeq(cs[0]) + AsSeq(cs[1]) + AsSeq(cs[2]) + AsSeq(cs[3]) + AsSeq(cs[4]) + AsSeq(cs[5])
  {
    assert cs[..5][..4] == cs[..4];
    assert cs[..4][..3] == cs[..3];
    assert cs[..3][..2] == cs[..2];
    assert cs[..2][..1] == cs[..1];
    assert cs[..1][..0] == [];
    assert Collect(cs[..1]) == Collect([]) + AsSeq(cs[0]);
    assert Collect(cs[..2]) == Collect(cs[..1]) + AsSeq(cs[1]);
    assert Collect(cs[..3]) == Collect(cs[..2]) + AsSeq(cs[2]);
    assert Collect(cs[..4]) == Collect(cs[..3]) + AsSeq(cs[3]);
    assert Collect(cs[..5]) == Collect(cs[..4]) + AsSeq(cs[4]);
    assert Collect(cs) == Collect(cs[..5]) + AsSeq(cs[5]);
  }

  /** Scenario: a tilt of exactly 5 degrees emits nothing; 5.0001 degrees, either way, is mild. */
  lemma TiltThresholdIsStrict()
    ensures HeadTiltCheck(5.0) == None && HeadTiltCheck(-5.0) == None
    ensures HeadTiltCheck(5.0001).Some? && HeadTiltCheck(5.0001).value.severity == Mild
    ensures HeadTiltCheck(-5.0001).Some? && HeadTiltCheck(-5.0001).value.detail == Tilted(Counterclockwise)
  {
  }
}
