/**
 * Landmarks, points and the vector arithmetic the scorers use. Points are
 * normalised image coordinates; y grows downwards.
 */
module Geometry {
  import opened Wrappers

  /** A detected body point; `visibility` may be absent from the detector's output. */
  datatype Landmark = Landmark(x: real, y: real, z: real, visibility: Option<real>)

  datatype Point = Point(x: real, y: real)

  function PointOf(l: Landmark): Point {
    Point(l.x, l.y)
  }

  function Midpoint(a: Point, b: Point): (m: Point)
    ensures m.x - a.x == b.x - m.x && m.y - a.y == b.y - m.y
  {
    Point((a.x + b.x) / 2.0, (a.y + b.y) / 2.0)
  }

  /** The vector from `b` to `a`. */
  function Minus(a: Point, b: Point): (v: Point)
    ensures v == Point(0.0, 0.0) <==> a == b
  {
    Point(a.x - b.x, a.y - b.y)
  }

  function Dot(u: Point, v: Point): real {
    u.x * v.x + u.y * v.y
  }

  function Cross(u: Point, v: Point): real {
    u.x * v.y - u.y * v.x
  }

  function SquaredLength(v: Point): (s: real)
    ensures s >= 0.0
    ensures v == Point(0.0, 0.0) ==> s == 0.0
  {
    v.x * v.x + v.y * v.y
  }

  /** Lagrange's identity in the plane; it gives the Cauchy-Schwarz inequality. */
  lemma Lagrange(u: Point, v: Point)
    ensures Dot(u, v) * Dot(u, v) + Cross(u, v) * Cross(u, v) == SquaredLength(u) * SquaredLength(v)
  {
  }

  /**
   * The host language's transcendental functions, which exact reals cannot
   * compute. The scorers apply each to exactly the argument the source passes:
   * `sqrt` is `Math.sqrt` / `np.linalg.norm`'s root, `atan2(y, x)` and `acos`
   * return radians.
   */
  datatype Transcendentals = Transcendentals(sqrt: real -> real, atan2: (real, real) -> real, acos: real -> real)

  /** `Math.PI` and `math.pi`, the double nearest to pi. */
  const PI: real := 3.141592653589793

  /** `r * 180 / Math.PI`, and Python's `math.degrees(r)` */
  function Degrees(radians: real): (d: real)
    ensures d > 0.0 <==> radians > 0.0
    ensures d == 0.0 <==> radians == 0.0
  {
    radians * 180.0 / PI
  }
}
