/**
 * The client scorer's landmark validator bound, confidence estimator and
 * geometric feature extractor (App.js, `analyzePostureFromLandmarks` and its
 * helpers `calculateOverallConfidence` and `calculateNeckAngle`).
 */
module FeatureExtractor {
  import opened Wrappers
  import opened JsNumber
  import opened Geometry
  import opened Pose

  /** Fewer landmarks than this are rejected. */
  const MIN_LANDMARKS: nat := 33

  /** The landmarks whose visibility makes up the confidence: nose, eyes, ears, shoulders, hips. */
  const KEY_LANDMARKS: seq<nat> := [NOSE, LEFT_EYE, RIGHT_EYE, LEFT_EAR, RIGHT_EAR, LEFT_SHOULDER, RIGHT_SHOULDER, LEFT_HIP, RIGHT_HIP]

  /** `landmarks[index]?.visibility || 0`: a missing point or a missing visibility counts as 0. */
  function VisibilityAt(lms: seq<Landmark>, index: nat): (v: real)
    ensures index >= |lms| || lms[index].visibility.None? ==> v == 0.0
    ensures index < |lms| && lms[index].visibility.Some? ==> v == lms[index].visibility.value
  {
    if index < |lms| && lms[index].visibility.Some? then lms[index].visibility.value else 0.0
  }

  /** The `reduce` that adds the visibilities of `indices`, left to right. */
  function VisibilitySum(lms: seq<Landmark>, indices: seq<nat>): real
    decreases |indices|
  {
    if indices == [] then 0.0
    else VisibilitySum(lms, indices[..|indices| - 1]) + VisibilityAt(lms, indices[|indices| - 1])
  }

  lemma {:induction false} VisibilitySumAtMost(lms: seq<Landmark>, indices: seq<nat>, hi: real)
    requires forall k :: 0 <= k < |indices| ==> VisibilityAt(lms, indices[k]) <= hi
    ensures VisibilitySum(lms, indices) <= |indices| as real * hi
    decreases |indices|
  {
    if indices != [] {
      var prefix := indices[..|indices| - 1];
      assert forall k :: 0 <= k < |prefix| ==> prefix[k] == indices[k];
      VisibilitySumAtMost(lms, prefix, hi);
    }
  }

  lemma {:induction false} VisibilitySumAtLeast(lms: seq<Landmark>, indices: seq<nat>, lo: real)
    requires forall k :: 0 <= k < |indices| ==> lo <= VisibilityAt(lms, indices[k])
    ensures |indices| as real * lo <= VisibilitySum(lms, indices)
    decreases |indices|
  {
    if indices != [] {
      var prefix := indices[..|indices| - 1];
      assert forall k :: 0 <= k < |prefix| ==> prefix[k] == indices[k];
      VisibilitySumAtLeast(lms, prefix, lo);
    }
  }

  function MeanKeyVisibility(lms: seq<Landmark>): real {
    VisibilitySum(lms, KEY_LANDMARKS) / |KEY_LANDMARKS| as real
  }

  /** `calculateOverallConfidence`: the mean key visibility, clamped to [0.5, 1.0]. */
  function OverallConfidence(lms: seq<Landmark>): (c: real)
    ensures 0.5 <= c <= 1.0
    ensures 0.5 <= MeanKeyVisibility(lms) <= 1.0 ==> c == MeanKeyVisibility(lms)
    ensures MeanKeyVisibility(lms) < 0.5 ==> c == 0.5
    ensures MeanKeyVisibility(lms) > 1.0 ==> c == 1.0
  {
    Clamp(MeanKeyVisibility(lms), 0.5, 1.0)
  }

  /**
   * When every key landmark reports the same visibility `v` (a missing one
   * reporting 0), the confidence is `v` clamped to [0.5, 1.0]: all 1.0 gives
   * 1.0, and all 0 gives the floor 0.5.
   */
  lemma ConfidenceOfUniformVisibility(lms: seq<Landmark>, v: real)
    requires forall k :: 0 <= k < |KEY_LANDMARKS| ==> VisibilityAt(lms, KEY_LANDMARKS[k]) == v
    ensures OverallConfidence(lms) == Clamp(v, 0.5, 1.0)
  {
    VisibilitySumAtMost(lms, KEY_LANDMARKS, v);
    VisibilitySumAtLeast(lms, KEY_LANDMARKS, v);
    assert MeanKeyVisibility(lms) == v;
  }

  /** However low the visibilities, the confidence never drops below 0.5, and it is 0.5 once their mean is at most 0.5. */
  lemma ConfidenceFloor(lms: seq<Landmark>)
    requires forall k :: 0 <= k < |KEY_LANDMARKS| ==> VisibilityAt(lms, KEY_LANDMARKS[k]) <= 0.5
    ensures OverallConfidence(lms) == 0.5
  {
    VisibilitySumAtMost(lms, KEY_LANDMARKS, 0.5);
  }

  /** The cosine handed to `Math.acos`, clamped to [-1, 1]. */
  function ClampedCosine(neck: Point, head: Point, neckLength: real, headLength: real): (c: real)
    requires neckLength * headLength != 0.0
    ensures -1.0 <= c <= 1.0
  {
    Clamp(Dot(neck, head) / (neckLength * headLength), -1.0, 1.0)
  }

  /**
   * `calculateNeckAngle(ear, shoulder, nose)`: the angle in degrees between
   * the shoulder-to-ear vector and the ear-to-nose vector, or 45 when either
   * vector has zero length.
   */
  function NeckAngle(ear: Point, shoulder: Point, nose: Point, t: Transcendentals): (angle: real)
    ensures t.sqrt(SquaredLength(Minus(ear, shoulder))) == 0.0 || t.sqrt(SquaredLength(Minus(nose, ear))) == 0.0 ==> angle == 45.0
  {
    var neck := Minus(ear, shoulder);
    var head := Minus(nose, ear);
    var neckLength := t.sqrt(SquaredLength(neck));
    var headLength := t.sqrt(SquaredLength(head));
    if neckLength == 0.0 || headLength == 0.0 then 45.0
    else Degrees(t.acos(ClampedCosine(neck, head, neckLength, headLength)))
  }

  /** With a square root that maps 0 to 0, a coincident ear and shoulder, or nose and ear, give the default 45 degrees. */
  lemma DegenerateNeckAngle(ear: Point, shoulder: Point, nose: Point, t: Transcendentals)
    requires t.sqrt(0.0) == 0.0
    requires ear == shoulder || nose == ear
    ensures NeckAngle(ear, shoulder, nose, t) == 45.0
  {
  }

  /**
   * The distance of `curr` from the line through `prev` and `next`, by vector
   * projection. A zero-length line divides by zero: the projection is NaN or
   * infinite and the result NaN, as is `Math.sqrt` of a negative number.
   */
  function PerpendicularDistance(prev: Point, curr: Point, next: Point, t: Transcendentals): Num {
    var line := Minus(next, prev);
    var point := Minus(curr, prev);
    DistanceFromProjection(SquaredLength(point), Dot(point, line), t.sqrt(SquaredLength(line)), t)
  }

  /** `sqrt(|point|² - projection²)` with `projection = dot / lineLength`. */
  function DistanceFromProjection(pointSquared: real, dot: real, lineLength: real, t: Transcendentals): Num {
    if lineLength == 0.0 then NaN
    else
      var projection := dot / lineLength;
      var radicand := pointSquared - projection * projection;
      if radicand < 0.0 then NaN else Finite(t.sqrt(radicand))
  }

  /**
   * With an exact square root of the line's squared length, the radicand is
   * the squared perpendicular distance cross²/|line|², so it is never
   * negative and the result is finite.
   */
  lemma PerpendicularDistanceExact(prev: Point, curr: Point, next: Point, t: Transcendentals)
    requires SquaredLength(Minus(next, prev)) > 0.0
    requires t.sqrt(SquaredLength(Minus(next, prev))) * t.sqrt(SquaredLength(Minus(next, prev))) == SquaredLength(Minus(next, prev))
    ensures PerpendicularDistance(prev, curr, next, t)
         == Finite(t.sqrt(Cross(Minus(curr, prev), Minus(next, prev)) * Cross(Minus(curr, prev), Minus(next, prev)) / SquaredLength(Minus(next, prev))))
  {
    var line := Minus(next, prev);
    var point := Minus(curr, prev);
    Lagrange(point, line);
    var c := Cross(point, line);
    var s := SquaredLength(line);
    ExactDistanceFromProjection(SquaredLength(point), Dot(point, line), c, s, t.sqrt(s), t);
    assert PerpendicularDistance(prev, curr, next, t) == DistanceFromProjection(SquaredLength(point), Dot(point, line), t.sqrt(s), t);
    assert c * c / s == Cross(Minus(curr, prev), Minus(next, prev)) * Cross(Minus(curr, prev), Minus(next, prev)) / SquaredLength(Minus(next, prev));
  }

  lemma ExactDistanceFromProjection(pp: real, d: real, c: real, s: real, l: real, t: Transcendentals)
    requires l * l == s && s > 0.0
    requires d * d + c * c == pp * s
    ensures DistanceFromProjection(pp, d, l, t) == Finite(t.sqrt(c * c / s))
  {
    Radicand(pp, d, c, s, l);
  }

  lemma QuotientSquared(d: real, l: real, s: real)
    requires l * l == s && s > 0.0
    ensures (d / l) * (d / l) == d * d / s
  {
    assert l != 0.0;
    var q := d / l;
    assert q * l == d;
    calc {
      q * q * s;
      q * q * (l * l);
      (q * l) * (q * l);
      d * d;
    }
  }

  /** pp - (d/l)² == c²/s when l² == s and d² + c² == pp·s. */
  lemma Radicand(pp: real, d: real, c: real, s: real, l: real)
    requires l * l == s && s > 0.0
    requires d * d + c * c == pp * s
    ensures pp - (d / l) * (d / l) == c * c / s
    ensures c * c / s >= 0.0
  {
    QuotientSquared(d, l, s);
    assert (pp - d * d / s) * s == pp * s - d * d;
    assert c * c >= 0.0;
  }

  /**
   * The JavaScript loop's running total over a chain of points: the sum of
   * the perpendicular distances of every interior point from the line through
   * its two neighbours, added left to right.
   */
  function ChainDeviation(points: seq<Point>, t: Transcendentals): Num
    decreases |points|
  {
    if |points| < 3 then Finite(0.0)
    else
      var n := |points|;
      Add(ChainDeviation(points[..n - 1], t), PerpendicularDistance(points[n - 3], points[n - 2], points[n - 1], t))
  }

  /** The spinal-alignment loop: `totalDeviation += perpDist` for every interior point. */
  method SpinalDeviation(points: seq<Point>, t: Transcendentals) returns (total: Num)
    ensures total == ChainDeviation(points, t)
  {
    total := Finite(0.0);
    var i := 1;
    while i + 1 < |points|
      invariant 1 <= i
      invariant |points| >= 2 ==> i + 1 <= |points|
      invariant total == ChainDeviation(points[..if |points| < 2 then |points| else i + 1], t)
    {
      var prevPoint := points[i - 1];
      var currPoint := points[i];
      var nextPoint := points[i + 1];
      assert points[..i + 2][..i + 1] == points[..i + 1];
      total := Add(total, PerpendicularDistance(prevPoint, currPoint, nextPoint, t));
      i := i + 1;
    }
    assert points[..if |points| < 2 then |points| else i + 1] == points;
  }

  /** The chain the scorer uses has one interior point, so the total is that point's distance. */
  lemma ThreePointChain(a: Point, b: Point, c: Point, t: Transcendentals)
    ensures ChainDeviation([a, b, c], t) == PerpendicularDistance(a, b, c, t)
  {
    assert [a, b, c][..2] == [a, b];
  }

  /** The values the detector reads, one per check, computed exactly as the source computes them. */
  datatype Features = Features(
    headForwardRatio: Num,
    shoulderImbalanceRatio: Num,
    leftShoulderHigher: bool,
    headTiltAngle: real,
    shoulderProtraction: Num,
    spinalDeviation: Num,
    neckAngle: real)

  /**
   * `|midEar.x - midShoulder.x| / |midShoulder.y - midEar.y|`: a non-negative
   * ratio unless ear and shoulder are level, where it is +Infinity, or NaN when
   * the two midpoints coincide.
   */
  function HeadForwardRatio(lms: seq<Landmark>): (r: Num)
    requires Covers(lms)
    ensures r.Finite? <==> MidShoulder(lms).y != MidEar(lms).y
    ensures r.Finite? ==> r.value >= 0.0 && r.value * Magnitude(MidShoulder(lms).y - MidEar(lms).y) == Magnitude(MidEar(lms).x - MidShoulder(lms).x)
    ensures r == NaN <==> MidEar(lms) == MidShoulder(lms)
    ensures r != NegInfinity
  {
    Div(Magnitude(MidEar(lms).x - MidShoulder(lms).x), Magnitude(MidShoulder(lms).y - MidEar(lms).y))
  }

  /** The shoulder height difference over the shoulder-to-hip height. */
  function ShoulderImbalanceRatio(lms: seq<Landmark>): (r: Num)
    requires Covers(lms)
    ensures r.Finite? <==> MidShoulder(lms).y != MidHip(lms).y
    ensures r.Finite? ==> r.value >= 0.0 && r.value * Magnitude(MidShoulder(lms).y - MidHip(lms).y) == Magnitude(lms[LEFT_SHOULDER].y - lms[RIGHT_SHOULDER].y)
    ensures r == NaN <==> MidShoulder(lms).y == MidHip(lms).y && lms[LEFT_SHOULDER].y == lms[RIGHT_SHOULDER].y
    ensures r != NegInfinity
  {
    Div(Magnitude(lms[LEFT_SHOULDER].y - lms[RIGHT_SHOULDER].y), Magnitude(MidShoulder(lms).y - MidHip(lms).y))
  }

  /** Image y grows downwards, so the higher shoulder has the smaller y. */
  predicate LeftShoulderHigher(lms: seq<Landmark>)
    requires Covers(lms)
  {
    lms[LEFT_SHOULDER].y < lms[RIGHT_SHOULDER].y
  }

  /** The signed angle of the eye line in degrees, with the sign of `atan2`'s result. */
  function HeadTiltAngle(lms: seq<Landmark>, t: Transcendentals): (a: real)
    requires Covers(lms)
    ensures a > 0.0 <==> t.atan2(lms[RIGHT_EYE].y - lms[LEFT_EYE].y, lms[RIGHT_EYE].x - lms[LEFT_EYE].x) > 0.0
    ensures a == 0.0 <==> t.atan2(lms[RIGHT_EYE].y - lms[LEFT_EYE].y, lms[RIGHT_EYE].x - lms[LEFT_EYE].x) == 0.0
  {
    Degrees(t.atan2(lms[RIGHT_EYE].y - lms[LEFT_EYE].y, lms[RIGHT_EYE].x - lms[LEFT_EYE].x))
  }

  /**
   * The signed horizontal shoulder-over-hip offset over the shoulder width;
   * shoulders at the same x give ±Infinity, or NaN with no offset.
   */
  function ShoulderProtraction(lms: seq<Landmark>): (r: Num)
    requires Covers(lms)
    ensures r.Finite? <==> lms[RIGHT_SHOULDER].x != lms[LEFT_SHOULDER].x
    ensures r.Finite? ==> r.value * Magnitude(lms[RIGHT_SHOULDER].x - lms[LEFT_SHOULDER].x) == MidShoulder(lms).x - MidHip(lms).x
    ensures r == NaN <==> lms[RIGHT_SHOULDER].x == lms[LEFT_SHOULDER].x && MidShoulder(lms).x == MidHip(lms).x
  {
    Div(MidShoulder(lms).x - MidHip(lms).x, Magnitude(lms[RIGHT_SHOULDER].x - lms[LEFT_SHOULDER].x))
  }

  function SpinalPoints(lms: seq<Landmark>): seq<Point>
    requires Covers(lms)
  {
    [MidEar(lms), MidShoulder(lms), MidHip(lms)]
  }

  function FeaturesOf(lms: seq<Landmark>, t: Transcendentals): Features
    requires |lms| >= MIN_LANDMARKS
  {
    Features(
      HeadForwardRatio(lms),
      ShoulderImbalanceRatio(lms),
      LeftShoulderHigher(lms),
      HeadTiltAngle(lms, t),
      ShoulderProtraction(lms),
      ChainDeviation(SpinalPoints(lms), t),
      NeckAngle(MidEar(lms), MidShoulder(lms), PointOf(lms[NOSE]), t))
  }
}
