/**
 * Points, sizes and the handful of arithmetic helpers (`Math.min`, `Math.max`,
 * `Math.abs` and the `Math.max(lo, Math.min(hi, v))` clamp) that the canvas and
 * connector code is written with. Coordinates are exact reals.
 */
module Geometry {

  datatype Point = Point(x: real, y: real)

  datatype Size = Size(width: real, height: real)

  /** A size both of whose sides are strictly positive. */
  predicate Positive(s: Size) {
    s.width > 0.0 && s.height > 0.0
  }

  function Min(a: real, b: real): real {
    if a <= b then a else b
  }

  function Max(a: real, b: real): real {
    if a >= b then a else b
  }

  function Abs(a: real): real {
    if a < 0.0 then -a else a
  }

  /** `Math.max(lo, Math.min(hi, v))`. */
  function Clamp(v: real, lo: real, hi: real): (r: real)
    ensures lo <= hi ==> lo <= r <= hi
    ensures lo <= v <= hi ==> r == v
    ensures v < lo ==> r == lo
    ensures lo <= hi && v > hi ==> r == hi
  {
    Max(lo, Min(hi, v))
  }

  /** Clamping is idempotent: a clamped value is left alone by a second clamp. */
  lemma ClampIdempotent(v: real, lo: real, hi: real)
    requires lo <= hi
    ensures Clamp(Clamp(v, lo, hi), lo, hi) == Clamp(v, lo, hi)
  {
  }

  /** The point halfway between `p` and `q`: equally far from both on each axis. */
  function Midpoint(p: Point, q: Point): (m: Point)
    ensures m.x - p.x == q.x - m.x && m.y - p.y == q.y - m.y
  {
    Point((p.x + q.x) / 2.0, (p.y + q.y) / 2.0)
  }

  /** `Math.min(a, b)` and `Math.max(a, b)` bound both arguments and return one of them. */
  lemma MinMaxBounds(a: real, b: real)
    ensures Min(a, b) <= a && Min(a, b) <= b && (Min(a, b) == a || Min(a, b) == b)
    ensures Max(a, b) >= a && Max(a, b) >= b && (Max(a, b) == a || Max(a, b) == b)
  {
  }

  /** A non-zero value scaled by a factor other than 1 changes. */
  lemma NotUnit(s: real, k: real, d: real)
    requires s != 0.0 && k != 1.0 && s * k == d
    ensures d != s
  {
  }

  /** A non-zero product has a non-zero left factor. */
  lemma NonZeroFactor(a: real, k: real, d: real)
    requires a * k == d && d != 0.0
    ensures a != 0.0
  {
  }

  /** If `s` scaled by `zoom` is a non-zero `d` and `e` scaled by `zoom` is `d - s`, then `e` is non-zero unless `zoom` is 1. */
  lemma ShiftLeavesGap(s: real, d: real, e: real, zoom: real)
    requires zoom != 1.0 && d != 0.0 && s * zoom == d && e * zoom == d - s
    ensures e != 0.0
  {
    NonZeroFactor(s, zoom, d);
    NotUnit(s, zoom, d);
    NonZeroFactor(e, zoom, d - s);
  }
}
