/**
 * Points, the constant 2*pi, and the floating-point library functions of the
 * animation (Math.sin, Math.cos and the square roots of sums of squares),
 * which the model receives as inputs rather than computes.
 */
module Geometry {

  datatype Point2 = Point2(x: real, y: real)

  datatype Point3 = Point3(x: real, y: real, z: real)

  /** `Math.PI * 2`, written as the double the browser computes. */
  const TwoPi: real := 6.283185307179586

  /** Math.sin and Math.cos, supplied by the caller. */
  datatype Trig = Trig(sin: real -> real, cos: real -> real)

  /** What the model assumes of the supplied sine and cosine: values in [-1, 1]. */
  ghost predicate TrigBounded(t: Trig) {
    forall a :: -1.0 <= t.sin(a) <= 1.0 && -1.0 <= t.cos(a) <= 1.0
  }

  /** `Math.sqrt(dx * dx + dy * dy)` as a function of the two differences. */
  type Norm2 = (real, real) -> real

  /** `Math.sqrt(dx * dx + dy * dy + dz * dz)` as a function of the three differences. */
  type Norm3 = (real, real, real) -> real

  /**
   * What the model assumes of a 2D length: never negative, zero exactly for
   * the zero vector, and |h| for a vector along one axis.
   */
  ghost predicate Norm2Like(norm: Norm2) {
    && (forall dx, dy :: norm(dx, dy) >= 0.0 && (norm(dx, dy) == 0.0 <==> dx == 0.0 && dy == 0.0))
    && (forall h :: norm(h, 0.0) == Abs(h))
    && (forall h :: norm(0.0, h) == Abs(h))
  }

  /** The same assumptions in three dimensions. */
  ghost predicate Norm3Like(norm: Norm3) {
    && (forall dx, dy, dz :: norm(dx, dy, dz) >= 0.0
          && (norm(dx, dy, dz) == 0.0 <==> dx == 0.0 && dy == 0.0 && dz == 0.0))
    && (forall h :: norm(h, 0.0, 0.0) == Abs(h))
    && (forall h :: norm(0.0, h, 0.0) == Abs(h))
  }

  /** The length of the segment from p to q. */
  function Distance2(norm: Norm2, p: Point2, q: Point2): real {
    norm(q.x - p.x, q.y - p.y)
  }

  function Distance3(norm: Norm3, p: Point3, q: Point3): real {
    norm(q.x - p.x, q.y - p.y, q.z - p.z)
  }

  function Abs(r: real): (a: real)
    ensures a >= 0.0 && (a == r || a == -r)
  {
    if r < 0.0 then -r else r
  }

  function Max(a: real, b: real): (m: real)
    ensures m >= a && m >= b && (m == a || m == b)
  {
    if a >= b then a else b
  }

  function Min(a: real, b: real): (m: real)
    ensures m <= a && m <= b && (m == a || m == b)
  {
    if a <= b then a else b
  }

  /** `base + c * amplitude`: a coordinate displaced from its anchor by at most the amplitude, for c in [-1, 1]. */
  function Sway(base: real, c: real, amplitude: real): (r: real)
    ensures -1.0 <= c <= 1.0 && amplitude >= 0.0 ==> Abs(r - base) <= amplitude
  {
    if -1.0 <= c <= 1.0 && amplitude >= 0.0 then
      TrigScaled(c, amplitude);
      base + c * amplitude
    else
      base + c * amplitude
  }

  /** A value in [-1, 1] scaled by a non-negative amplitude is at most the amplitude in size. */
  lemma TrigScaled(c: real, a: real)
    requires -1.0 <= c <= 1.0 && a >= 0.0
    ensures Abs(c * a) <= a
  {
    assert (1.0 + c) * a >= 0.0 && (1.0 - c) * a >= 0.0;
  }

  /** `Math.max(lo, Math.min(hi, v))`: v pulled into [lo, hi]; lo wins when the range is empty. */
  function Clamp(lo: real, hi: real, v: real): (r: real)
    ensures lo <= r
    ensures lo <= hi ==> r <= hi
    ensures lo <= v <= hi ==> r == v
    ensures hi < lo ==> r == lo
  {
    Max(lo, Min(hi, v))
  }

  /** `Math.random() * v`: for a draw in [0, 1) and v >= 0, a value in [0, v], below v when v is positive. */
  function RandomScale(r: real, v: real): (p: real)
    requires 0.0 <= r < 1.0
    ensures v >= 0.0 ==> 0.0 <= p <= v
    ensures v > 0.0 ==> p < v
  {
    UnitScale(r, v);
    r * v
  }

  lemma UnitScale(r: real, v: real)
    requires 0.0 <= r < 1.0
    ensures v >= 0.0 ==> 0.0 <= r * v <= v
    ensures v > 0.0 ==> r * v < v
  {
    if v > 0.0 {
      assert v - r * v == (1.0 - r) * v;
    }
  }

  /** A segment has length zero exactly when its ends coincide. */
  lemma Distance2Zero(norm: Norm2, p: Point2, q: Point2)
    requires Norm2Like(norm)
    ensures Distance2(norm, p, q) >= 0.0
    ensures Distance2(norm, p, q) == 0.0 <==> p == q
  {
    assert Distance2(norm, p, q) == 0.0 <==> q.x - p.x == 0.0 && q.y - p.y == 0.0;
  }

  lemma Distance3Zero(norm: Norm3, p: Point3, q: Point3)
    requires Norm3Like(norm)
    ensures Distance3(norm, p, q) >= 0.0
    ensures Distance3(norm, p, q) == 0.0 <==> p == q
  {
    assert Distance3(norm, p, q) == 0.0 <==> q.x - p.x == 0.0 && q.y - p.y == 0.0 && q.z - p.z == 0.0;
  }
}
