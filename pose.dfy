/** Indices of the MediaPipe pose landmarks that the scorers read, and the midpoints they use. */
module Pose {
  import opened Geometry

  const NOSE: nat := 0
  const LEFT_EYE: nat := 1
  const RIGHT_EYE: nat := 2
  const LEFT_EAR: nat := 7
  const RIGHT_EAR: nat := 8
  const LEFT_SHOULDER: nat := 11
  const RIGHT_SHOULDER: nat := 12
  const LEFT_HIP: nat := 23
  const RIGHT_HIP: nat := 24

  /** A landmark list long enough for every index above to exist. */
  predicate Covers(lms: seq<Landmark>) {
    |lms| > RIGHT_HIP
  }

  function MidEar(lms: seq<Landmark>): Point
    requires Covers(lms)
  {
    Midpoint(PointOf(lms[LEFT_EAR]), PointOf(lms[RIGHT_EAR]))
  }

  function MidShoulder(lms: seq<Landmark>): Point
    requires Covers(lms)
  {
    Midpoint(PointOf(lms[LEFT_SHOULDER]), PointOf(lms[RIGHT_SHOULDER]))
  }

  function MidHip(lms: seq<Landmark>): Point
    requires Covers(lms)
  {
    Midpoint(PointOf(lms[LEFT_HIP]), PointOf(lms[RIGHT_HIP]))
  }
}
