/**
 * What the two Flask backends (posture_backend/working_posture_app.py and
 * posture_backend/app.py) share: the per-frame analysis record with its six
 * binary flags, the neck-angle reading, the issue texts and tips of
 * `get_posture_issues_and_recommendations`, and the issue-count score.
 */
module BackendReport {
  import opened JsNumber
  import opened Geometry

  /** A flag stored as the integer 0 or 1. */
  type Bit = b: int | 0 <= b <= 1

  function Flag(raised: bool): (b: Bit)
    ensures b == 1 <==> raised
  {
    if raised then 1 else 0
  }

  const FORWARD_HEAD_LIMIT: real := 0.08
  const SHOULDER_IMBALANCE_LIMIT: real := 0.05
  /** Radians, not degrees. */
  const HEAD_TILT_LIMIT: real := 0.2
  const SLOUCH_LIMIT: real := 0.05
  const MISALIGNMENT_LIMIT: real := 0.12
  /** The neck angle is flagged when it is more than this many degrees away from 90. */
  const NECK_TOLERANCE: real := 25.0
  /** The neck angle reported when either body segment has zero length. */
  const UPRIGHT_NECK: real := 90.0

  datatype Analysis = Analysis(
    forwardHeadDistance: real, forwardHeadBinary: Bit,
    shoulderImbalance: real, shoulderImbalanceBinary: Bit,
    headTilt: real, headTiltBinary: Bit,
    slouchDistance: real, slouchingBinary: Bit,
    totalMisalignment: real, alignmentBinary: Bit,
    neckAngle: real, neckAngleBinary: Bit)

  /** Every flag is raised exactly when its reading passes its limit. */
  predicate FlagsMatchReadings(a: Analysis) {
    && (a.forwardHeadBinary == 1 <==> a.forwardHeadDistance > FORWARD_HEAD_LIMIT)
    && (a.shoulderImbalanceBinary == 1 <==> a.shoulderImbalance > SHOULDER_IMBALANCE_LIMIT)
    && (a.headTiltBinary == 1 <==> a.headTilt > HEAD_TILT_LIMIT)
    && (a.slouchingBinary == 1 <==> a.slouchDistance > SLOUCH_LIMIT)
    && (a.alignmentBinary == 1 <==> a.totalMisalignment > MISALIGNMENT_LIMIT)
    && (a.neckAngleBinary == 1 <==> Magnitude(a.neckAngle - UPRIGHT_NECK) > NECK_TOLERANCE)
  }

  datatype NeckReading = NeckReading(degrees: real, flag: Bit)

  /**
   * The angle between the neck (mid-shoulder to mid-ear) and the torso
   * (mid-hip to mid-shoulder), in degrees. When the product of the two
   * lengths is not positive, it is 90 with the flag down.
   */
  function NeckReadingOf(midEar: Point, midShoulder: Point, midHip: Point, t: Transcendentals): (n: NeckReading)
    ensures n.flag == 1 <==> Magnitude(n.degrees - UPRIGHT_NECK) > NECK_TOLERANCE
    ensures t.sqrt(SquaredLength(Minus(midEar, midShoulder))) * t.sqrt(SquaredLength(Minus(midShoulder, midHip))) <= 0.0 ==>
      n == NeckReading(UPRIGHT_NECK, 0)
  {
    var neck := Minus(midEar, midShoulder);
    var torso := Minus(midShoulder, midHip);
    var norms := t.sqrt(SquaredLength(neck)) * t.sqrt(SquaredLength(torso));
    if norms > 0.0 then
      var degrees := Degrees(t.acos(Clamp(Dot(neck, torso) / norms, -1.0, 1.0)));
      NeckReading(degrees, Flag(Magnitude(degrees - UPRIGHT_NECK) > NECK_TOLERANCE))
    else
      NeckReading(UPRIGHT_NECK, 0)
  }

  /** An ear midpoint on the shoulder midpoint (with a square root that maps 0 to 0) reads as upright and unflagged. */
  lemma DegenerateNeckReading(midEar: Point, midShoulder: Point, midHip: Point, t: Transcendentals)
    requires t.sqrt(0.0) == 0.0
    requires midEar == midShoulder || midShoulder == midHip
    ensures NeckReadingOf(midEar, midShoulder, midHip, t) == NeckReading(UPRIGHT_NECK, 0)
  {
    var neck := Minus(midEar, midShoulder);
    var torso := Minus(midShoulder, midHip);
    if midEar == midShoulder {
      assert SquaredLength(neck) == 0.0;
    } else {
      assert SquaredLength(torso) == 0.0;
    }
  }

  /** The analysis record from its six readings, each flag set by its limit. */
  function Assemble(forwardHead: real, shoulderDiff: real, tilt: real, slouch: real, misalignment: real, neck: NeckReading): (a: Analysis)
    ensures (neck.flag == 1 <==> Magnitude(neck.degrees - UPRIGHT_NECK) > NECK_TOLERANCE) ==> FlagsMatchReadings(a)
  {
    Analysis(
      forwardHead, Flag(forwardHead > FORWARD_HEAD_LIMIT),
      shoulderDiff, Flag(shoulderDiff > SHOULDER_IMBALANCE_LIMIT),
      tilt, Flag(tilt > HEAD_TILT_LIMIT),
      slouch, Flag(slouch > SLOUCH_LIMIT),
      misalignment, Flag(misalignment > MISALIGNMENT_LIMIT),
      neck.degrees, neck.flag)
  }

  /**
   * When the misalignment is the sum of the two offsets' magnitudes, a raised
   * forward-head flag and a raised slouching flag together raise the
   * alignment flag (0.08 + 0.05 > 0.12); the converse fails.
   */
  lemma ForwardHeadAndSlouchImplyMisalignment(a: Analysis)
    requires FlagsMatchReadings(a)
    requires a.totalMisalignment == Magnitude(a.forwardHeadDistance) + Magnitude(a.slouchDistance)
    requires a.forwardHeadBinary == 1 && a.slouchingBinary == 1
    ensures a.alignmentBinary == 1
  {
  }

  datatype Finding = ForwardHead | UnevenShoulders | HeadTilted | Slouching | PoorAlignment | PoorNeckAngle

  /** The order in which the findings are checked and reported. */
  function Position(k: Finding): nat {
    match k
    case ForwardHead => 0
    case UnevenShoulders => 1
    case HeadTilted => 2
    case Slouching => 3
    case PoorAlignment => 4
    case PoorNeckAngle => 5
  }

  function FlagOf(a: Analysis, k: Finding): Bit {
    match k
    case ForwardHead => a.forwardHeadBinary
    case UnevenShoulders => a.shoulderImbalanceBinary
    case HeadTilted => a.headTiltBinary
    case Slouching => a.slouchingBinary
    case PoorAlignment => a.alignmentBinary
    case PoorNeckAngle => a.neckAngleBinary
  }

  /** `sum([...six binaries...])` */
  function TotalIssues(a: Analysis): nat {
    a.forwardHeadBinary + a.shoulderImbalanceBinary + a.headTiltBinary
      + a.slouchingBinary + a.alignmentBinary + a.neckAngleBinary
  }

  function IfRaised(a: Analysis, k: Finding): seq<Finding> {
    if FlagOf(a, k) == 1 then [k] else []
  }

  /** The raised findings, in check order. */
  function Raised(a: Analysis): seq<Finding> {
    IfRaised(a, ForwardHead) + IfRaised(a, UnevenShoulders) + IfRaised(a, HeadTilted)
      + IfRaised(a, Slouching) + IfRaised(a, PoorAlignment) + IfRaised(a, PoorNeckAngle)
  }

  /** The raised findings are exactly the findings whose flag is 1. */
  lemma RaisedMembers(a: Analysis, k: Finding)
    ensures k in Raised(a) <==> FlagOf(a, k) == 1
  {
    var p1 := IfRaised(a, ForwardHead);
    var p2 := p1 + IfRaised(a, UnevenShoulders);
    var p3 := p2 + IfRaised(a, HeadTilted);
    var p4 := p3 + IfRaised(a, Slouching);
    var p5 := p4 + IfRaised(a, PoorAlignment);
    assert k in Raised(a) <==> k in p5 || k in IfRaised(a, PoorNeckAngle);
    assert k in p5 <==> k in p4 || k in IfRaised(a, PoorAlignment);
    assert k in p4 <==> k in p3 || k in IfRaised(a, Slouching);
    assert k in p3 <==> k in p2 || k in IfRaised(a, HeadTilted);
    assert k in p2 <==> k in p1 || k in IfRaised(a, UnevenShoulders);
  }

  /** There are as many raised findings as the issue count, so at most six. */
  lemma RaisedCount(a: Analysis)
    ensures |Raised(a)| == TotalIssues(a) <= 6
  {
  }

  /** The raised findings come in check order, so none is repeated. */
  lemma RaisedOrdered(a: Analysis)
    ensures forall i, j :: 0 <= i < j < |Raised(a)| ==> Position(Raised(a)[i]) < Position(Raised(a)[j])
  {
    var r := Raised(a);
    forall i, j | 0 <= i < j < |r|
      ensures Position(r[i]) < Position(r[j])
    {
      OrderedConcatenation(a, r, i, j);
    }
  }

  lemma OrderedConcatenation(a: Analysis, r: seq<Finding>, i: int, j: int)
    requires r == Raised(a) && 0 <= i < j < |r|
    ensures Position(r[i]) < Position(r[j])
  {
    var p1 := IfRaised(a, ForwardHead);
    var p2 := p1 + IfRaised(a, UnevenShoulders);
    var p3 := p2 + IfRaised(a, HeadTilted);
    var p4 := p3 + IfRaised(a, Slouching);
    var p5 := p4 + IfRaised(a, PoorAlignment);
    assert r == p5 + IfRaised(a, PoorNeckAngle);
    // Every element of the prefix p_m has a position below m.
    assert forall x :: x in p1 ==> Position(x) < 1;
    assert forall x :: x in p2 ==> Position(x) < 2;
    assert forall x :: x in p3 ==> Position(x) < 3;
    assert forall x :: x in p4 ==> Position(x) < 4;
    assert forall x :: x in p5 ==> Position(x) < 5;
    if j < |p1| {
    } else if j < |p2| {
      assert r[j] == UnevenShoulders && r[i] == p2[i] && r[i] in p1;
    } else if j < |p3| {
      assert r[j] == HeadTilted && r[i] == p3[i] && r[i] in p2;
    } else if j < |p4| {
      assert r[j] == Slouching && r[i] == p4[i] && r[i] in p3;
    } else if j < |p5| {
      assert r[j] == PoorAlignment && r[i] == p5[i] && r[i] in p4;
    } else {
      assert r[j] == PoorNeckAngle && r[i] in p5;
    }
  }

  function IssueText(k: Finding): string {
    match k
    case ForwardHead => "Forward head posture detected"
    case UnevenShoulders => "Uneven shoulders"
    case HeadTilted => "Head tilted to one side"
    case Slouching => "Slouching/rounded shoulders"
    case PoorAlignment => "Poor overall alignment"
    case PoorNeckAngle => "Poor neck angle"
  }

  datatype Recommendation = Recommendation(issue: string, tips: seq<string>)

  function Advice(k: Finding): (r: Recommendation)
    ensures |r.tips| == 3
  {
    match k
    case ForwardHead => Recommendation("Forward Head Posture", [
      "Tuck your chin back",
      "Imagine a string pulling the top of your head up",
      "Keep your ears aligned over your shoulders"])
    case UnevenShoulders => Recommendation("Shoulder Imbalance", [
      "Check if you're carrying weight on one side",
      "Practice shoulder blade squeezes",
      "Be aware of which shoulder tends to be higher"])
    case HeadTilted => Recommendation("Head Tilt", [
      "Practice head alignment exercises",
      "Check your workspace ergonomics",
      "Be mindful of phone/computer screen positioning"])
    case Slouching => Recommendation("Slouching", [
      "Pull your shoulder blades back and down",
      "Engage your core muscles",
      "Keep your chest open"])
    case PoorAlignment => Recommendation("Overall Alignment", [
      "Practice standing against a wall",
      "Focus on stacking head over shoulders over hips",
      "Consider ergonomic adjustments to your workspace"])
    case PoorNeckAngle => Recommendation("Neck Angle", [
      "Adjust your screen to eye level",
      "Practice neck stretches",
      "Maintain neutral neck position"])
  }

  /** The issue texts of some findings, in order. */
  function Texts(ks: seq<Finding>): (ts: seq<string>)
    ensures |ts| == |ks|
    ensures forall i :: 0 <= i < |ks| ==> ts[i] == IssueText(ks[i])
    decreases |ks|
  {
    if ks == [] then [] else Texts(ks[..|ks| - 1]) + [IssueText(ks[|ks| - 1])]
  }

  /** The recommendations of some findings, in order. */
  function Advices(ks: seq<Finding>): (rs: seq<Recommendation>)
    ensures |rs| == |ks|
    decreases |ks|
  {
    if ks == [] then [] else Advices(ks[..|ks| - 1]) + [Advice(ks[|ks| - 1])]
  }

  lemma {:induction false} AdvicesPointwise(ks: seq<Finding>)
    ensures forall i :: 0 <= i < |ks| ==> Advices(ks)[i] == Advice(ks[i])
    decreases |ks|
  {
    if ks != [] {
      AdvicesPointwise(ks[..|ks| - 1]);
    }
  }

  /** The six issue texts have six different lengths, so a text names its finding. */
  lemma IssueTextInjective(a: Finding, b: Finding)
    ensures IssueText(a) == IssueText(b) ==> a == b
  {
    if IssueText(a) == IssueText(b) {
      assert |IssueText(a)| == |IssueText(b)|;
    }
  }

  /** A finding's issue text is listed exactly when the finding is, since the six texts differ. */
  lemma TextListed(ks: seq<Finding>, k: Finding)
    ensures IssueText(k) in Texts(ks) <==> k in ks
  {
    var ts := Texts(ks);
    if IssueText(k) in ts {
      var i :| 0 <= i < |ts| && ts[i] == IssueText(k);
      assert IssueText(ks[i]) == IssueText(k);
      IssueTextInjective(ks[i], k);
    }
    if k in ks {
      var i :| 0 <= i < |ks| && ks[i] == k;
      assert ts[i] == IssueText(k);
    }
  }

  lemma {:induction false} TextsOfConcatenation(x: seq<Finding>, y: seq<Finding>)
    ensures Texts(x + y) == Texts(x) + Texts(y)
    decreases |y|
  {
    if y == [] {
      assert x + y == x;
    } else {
      var y' := y[..|y| - 1];
      var last := y[|y| - 1];
      TextsOfConcatenation(x, y');
      assert (x + y)[..|x + y| - 1] == x + y' && (x + y)[|x + y| - 1] == last;
      calc {
        Texts(x + y);
        Texts(x + y') + [IssueText(last)];
        Texts(x) + Texts(y') + [IssueText(last)];
        Texts(x) + (Texts(y') + [IssueText(last)]);
        Texts(x) + Texts(y);
      }
    }
  }

  lemma {:induction false} AdvicesOfConcatenation(x: seq<Finding>, y: seq<Finding>)
    ensures Advices(x + y) == Advices(x) + Advices(y)
    decreases |y|
  {
    if y == [] {
      assert x + y == x;
    } else {
      var y' := y[..|y| - 1];
      var last := y[|y| - 1];
      AdvicesOfConcatenation(x, y');
      assert (x + y)[..|x + y| - 1] == x + y' && (x + y)[|x + y| - 1] == last;
      calc {
        Advices(x + y);
        Advices(x + y') + [Advice(last)];
        Advices(x) + Advices(y') + [Advice(last)];
        Advices(x) + (Advices(y') + [Advice(last)]);
        Advices(x) + Advices(y);
      }
    }
  }

  /** The texts and recommendations of the raised findings, check by check. */
  lemma RaisedInCheckOrder(a: Analysis)
    ensures Texts(Raised(a)) == Texts(IfRaised(a, ForwardHead)) + Texts(IfRaised(a, UnevenShoulders))
      + Texts(IfRaised(a, HeadTilted)) + Texts(IfRaised(a, Slouching))
      + Texts(IfRaised(a, PoorAlignment)) + Texts(IfRaised(a, PoorNeckAngle))
    ensures Advices(Raised(a)) == Advices(IfRaised(a, ForwardHead)) + Advices(IfRaised(a, UnevenShoulders))
      + Advices(IfRaised(a, HeadTilted)) + Advices(IfRaised(a, Slouching))
      + Advices(IfRaised(a, PoorAlignment)) + Advices(IfRaised(a, PoorNeckAngle))
  {
    var p1 := IfRaised(a, ForwardHead);
    var p2 := p1 + IfRaised(a, UnevenShoulders);
    var p3 := p2 + IfRaised(a, HeadTilted);
    var p4 := p3 + IfRaised(a, Slouching);
    var p5 := p4 + IfRaised(a, PoorAlignment);
    TextsOfConcatenation(p1, IfRaised(a, UnevenShoulders));
    AdvicesOfConcatenation(p1, IfRaised(a, UnevenShoulders));
    TextsOfConcatenation(p2, IfRaised(a, HeadTilted));
    AdvicesOfConcatenation(p2, IfRaised(a, HeadTilted));
    TextsOfConcatenation(p3, IfRaised(a, Slouching));
    AdvicesOfConcatenation(p3, IfRaised(a, Slouching));
    TextsOfConcatenation(p4, IfRaised(a, PoorAlignment));
    AdvicesOfConcatenation(p4, IfRaised(a, PoorAlignment));
    TextsOfConcatenation(p5, IfRaised(a, PoorNeckAngle));
    AdvicesOfConcatenation(p5, IfRaised(a, PoorNeckAngle));
  }

  /** `if analysis[<flag of k>] == 1:` append the finding's issue text and recommendation. */
  method NoteIfRaised(a: Analysis, k: Finding, issues: seq<string>, recommendations: seq<Recommendation>)
    returns (issues': seq<string>, recommendations': seq<Recommendation>)
    ensures issues' == issues + Texts(IfRaised(a, k)) && recommendations' == recommendations + Advices(IfRaised(a, k))
  {
    issues', recommendations' := issues, recommendations;
    if FlagOf(a, k) == 1 {
      issues' := issues' + [IssueText(k)];
      recommendations' := recommendations' + [Advice(k)];
      assert [k][..0] == [];
    }
  }

  /**
   * `get_posture_issues_and_recommendations`: one issue text and one
   * recommendation per raised flag, both in check order.
   */
  method IssuesAndRecommendations(a: Analysis) returns (issues: seq<string>, recommendations: seq<Recommendation>)
    ensures issues == Texts(Raised(a)) && recommendations == Advices(Raised(a))
    ensures |issues| == |recommendations| == TotalIssues(a)
  {
    issues, recommendations := NoteIfRaised(a, ForwardHead, [], []);
    issues, recommendations := NoteIfRaised(a, UnevenShoulders, issues, recommendations);
    issues, recommendations := NoteIfRaised(a, HeadTilted, issues, recommendations);
    issues, recommendations := NoteIfRaised(a, Slouching, issues, recommendations);
    issues, recommendations := NoteIfRaised(a, PoorAlignment, issues, recommendations);
    issues, recommendations := NoteIfRaised(a, PoorNeckAngle, issues, recommendations);
    RaisedInCheckOrder(a);
    assert [] + Texts(IfRaised(a, ForwardHead)) == Texts(IfRaised(a, ForwardHead));
    assert [] + Advices(IfRaised(a, ForwardHead)) == Advices(IfRaised(a, ForwardHead));
    RaisedCount(a);
  }

  /** The listed issue texts number the raised flags and name exactly the raised findings. */
  lemma ListedIssues(a: Analysis)
    ensures |Texts(Raised(a))| == TotalIssues(a)
    ensures forall k :: IssueText(k) in Texts(Raised(a)) <==> FlagOf(a, k) == 1
  {
    RaisedCount(a);
    forall k | true
      ensures IssueText(k) in Texts(Raised(a)) <==> FlagOf(a, k) == 1
    {
      TextListed(Raised(a), k);
      RaisedMembers(a, k);
    }
  }

  /** The per-issue penalty of the score. */
  const ISSUE_PENALTY: real := 16.67

  /** `max(0, 100 - total_issues * 16.67)` */
  function PostureScore(totalIssues: nat): (s: real)
    ensures 0.0 <= s <= 100.0
    ensures s == 100.0 <==> totalIssues == 0
    ensures totalIssues <= 5 ==> s == 100.0 - totalIssues as real * ISSUE_PENALTY
    ensures totalIssues >= 6 ==> s == 0.0
  {
    Max(0.0, 100.0 - totalIssues as real * ISSUE_PENALTY)
  }

  /** More raised flags never raise the score. */
  lemma PostureScoreAntitone(m: nat, n: nat)
    requires m <= n
    ensures PostureScore(n) <= PostureScore(m)
  {
  }

  datatype MlPrediction = MlPrediction(probability: real, binaryPrediction: Bit, postureQuality: string, confidence: real)

  /** The response body's `analysis` object; the score is kept before its rounding to one decimal. */
  datatype Report = Report(
    postureScore: real,
    mlPrediction: MlPrediction,
    issues: seq<string>,
    recommendations: seq<Recommendation>,
    measurements: Analysis,
    totalIssues: nat)
}
