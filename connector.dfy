/**
 * Connector geometry shared by the two boundary-routed connection lines: node
 * centres, the point where the ray from a node's centre leaves its box,
 * both endpoints of a line, and measured-size floors.
 */
module Connector {
  import opened Geometry

  /** `position + size / 2`: the point halfway between the box's opposite corners. */
  function Center(position: Point, size: Size): (c: Point)
    ensures c.x - position.x == position.x + size.width - c.x
    ensures c.y - position.y == position.y + size.height - c.y
  {
    Point(position.x + size.width / 2.0, position.y + size.height / 2.0)
  }

  /** A point a fraction `t` of the way from `p` to `q`. */
  function Along(p: Point, q: Point, t: real): (r: Point)
    ensures r.x - p.x == (q.x - p.x) * t && r.y - p.y == (q.y - p.y) * t
  {
    Point(p.x + (q.x - p.x) * t, p.y + (q.y - p.y) * t)
  }

  predicate NonZero(d: Point) {
    d.x != 0.0 || d.y != 0.0
  }

  /** The ray leaves through the left or right side. */
  predicate ExitsSideways(direction: Point, size: Size) {
    Abs(direction.x) * (size.height / 2.0) > Abs(direction.y) * (size.width / 2.0)
  }

  /** How far along `direction` the boundary is reached. */
  function ExitRatio(direction: Point, size: Size): (t: real)
    requires Positive(size) && NonZero(direction)
    ensures t > 0.0
  {
    if ExitsSideways(direction, size) then
      (if direction.x > 0.0 then size.width / 2.0 else -(size.width / 2.0)) / direction.x
    else
      (if direction.y > 0.0 then size.height / 2.0 else -(size.height / 2.0)) / direction.y
  }

  /** `p` lies on the boundary of the box with centre `center` and size `size`. */
  predicate OnBoundary(p: Point, center: Point, size: Size) {
    Abs(p.x - center.x) <= size.width / 2.0 && Abs(p.y - center.y) <= size.height / 2.0
    && (Abs(p.x - center.x) == size.width / 2.0 || Abs(p.y - center.y) == size.height / 2.0)
  }

  /** The exit through the left or right side: the side the ray points to, at the height the ray reaches there. */
  function SideExit(center: Point, direction: Point, size: Size): Point
    requires direction.x != 0.0
  {
    var side := if direction.x > 0.0 then size.width / 2.0 else -(size.width / 2.0);
    Point(center.x + side, center.y + direction.y * (side / direction.x))
  }

  /** The exit through the top or bottom side. */
  function TopBottomExit(center: Point, direction: Point, size: Size): Point
    requires direction.y != 0.0
  {
    var side := if direction.y > 0.0 then size.height / 2.0 else -(size.height / 2.0);
    Point(center.x + direction.x * (side / direction.y), center.y + side)
  }

  /** `getIntersectionPoint`: where the ray from `center` along `direction` leaves the box. */
  function Intersection(center: Point, direction: Point, size: Size): (p: Point)
    requires Positive(size) && NonZero(direction)
    ensures OnBoundary(p, center, size)
    ensures p == Along(center, Point(center.x + direction.x, center.y + direction.y), ExitRatio(direction, size))
  {
    if ExitsSideways(direction, size) then
      SidewaysExit(center, direction, size);
      SideExit(center, direction, size)
    else
      VerticalExit(center, direction, size);
      TopBottomExit(center, direction, size)
  }

  lemma MulDiv(a: real, b: real)
    requires b != 0.0
    ensures b * (a / b) == a
  {
  }

  lemma AbsScale(a: real, r: real)
    requires r >= 0.0
    ensures Abs(a * r) == Abs(a) * r
  {
  }

  /** From `r * d == w` and `u * w < d * h` (or `<=`) with `d > 0`, the scaled offset `u * r` stays below `h`. */
  lemma ScaledBelow(u: real, r: real, d: real, w: real, h: real)
    requires d > 0.0 && r * d == w && u * w <= d * h
    ensures u * r <= h
  {
    assert (u * r) * d == u * w;
    assert (u * r - h) * d <= 0.0;
  }

  /** A non-zero ray that does not leave through a side has a vertical component. */
  lemma NotSidewaysMovesVertically(ax: real, ay: real, hw: real, hh: real)
    requires ax >= 0.0 && ay >= 0.0 && hw > 0.0 && hh > 0.0
    requires ax > 0.0 || ay > 0.0
    requires ax * hh <= ay * hw
    ensures ay > 0.0
  {
    assert ax * hh >= 0.0;
    assert ay * hw >= 0.0;
    assert ax * hh + ay * hw > 0.0;
    assert ay * hw > 0.0;
  }

  /**
   * The offsets of an exit, in plain numbers: `d` is the ray's component
   * towards the side it leaves by, `e` the other component, `h` and `k` the
   * half-extents along them. The ratio is positive, reaches the side exactly
   * and keeps the other offset within its half-extent.
   */
  lemma ExitOffsets(d: real, e: real, h: real, k: real)
    requires d != 0.0 && h > 0.0 && k > 0.0 && Abs(e) * h <= Abs(d) * k
    ensures var side := if d > 0.0 then h else -h;
      side / d > 0.0 && d * (side / d) == side && Abs(e * (side / d)) <= k
  {
    var side := if d > 0.0 then h else -h;
    var r := side / d;
    MulDiv(side, d);
    assert r > 0.0;
    assert r * Abs(d) == h;
    AbsScale(e, r);
    ScaledBelow(Abs(e), r, Abs(d), h, k);
  }

  /** The side exit lies on the box's boundary. */
  lemma SideExitOnBoundary(center: Point, direction: Point, size: Size)
    requires Positive(size) && direction.x != 0.0 && ExitsSideways(direction, size)
    ensures OnBoundary(SideExit(center, direction, size), center, size)
  {
    ExitOffsets(direction.x, direction.y, size.width / 2.0, size.height / 2.0);
  }

  /** The side exit is the exit ratio of the way along the ray. */
  lemma SideExitAlong(center: Point, direction: Point, size: Size)
    requires Positive(size) && direction.x != 0.0 && ExitsSideways(direction, size)
    ensures SideExit(center, direction, size)
            == Along(center, Point(center.x + direction.x, center.y + direction.y), ExitRatio(direction, size))
  {
    var side := if direction.x > 0.0 then size.width / 2.0 else -(size.width / 2.0);
    MulDiv(side, direction.x);
  }

  /** Leaving through a side: the point is on that side, at the exit ratio along the ray. */
  lemma SidewaysExit(center: Point, direction: Point, size: Size)
    requires Positive(size) && ExitsSideways(direction, size)
    ensures direction.x != 0.0
    ensures OnBoundary(SideExit(center, direction, size), center, size)
    ensures SideExit(center, direction, size)
            == Along(center, Point(center.x + direction.x, center.y + direction.y), ExitRatio(direction, size))
  {
    assert Abs(direction.x) * (size.height / 2.0) > 0.0;
    SideExitOnBoundary(center, direction, size);
    SideExitAlong(center, direction, size);
  }

  /** The top or bottom exit lies on the box's boundary. */
  lemma TopBottomExitOnBoundary(center: Point, direction: Point, size: Size)
    requires Positive(size) && direction.y != 0.0 && !ExitsSideways(direction, size)
    ensures OnBoundary(TopBottomExit(center, direction, size), center, size)
  {
    ExitOffsets(direction.y, direction.x, size.height / 2.0, size.width / 2.0);
  }

  /** The top or bottom exit is the exit ratio of the way along the ray. */
  lemma TopBottomExitAlong(center: Point, direction: Point, size: Size)
    requires Positive(size) && direction.y != 0.0 && !ExitsSideways(direction, size)
    ensures TopBottomExit(center, direction, size)
            == Along(center, Point(center.x + direction.x, center.y + direction.y), ExitRatio(direction, size))
  {
    var side := if direction.y > 0.0 then size.height / 2.0 else -(size.height / 2.0);
    MulDiv(side, direction.y);
  }

  /** Leaving through the top or bottom: the point is on that side, at the exit ratio along the ray. */
  lemma VerticalExit(center: Point, direction: Point, size: Size)
    requires Positive(size) && NonZero(direction) && !ExitsSideways(direction, size)
    ensures direction.y != 0.0
    ensures OnBoundary(TopBottomExit(center, direction, size), center, size)
    ensures TopBottomExit(center, direction, size)
            == Along(center, Point(center.x + direction.x, center.y + direction.y), ExitRatio(direction, size))
  {
    NotSidewaysMovesVertically(Abs(direction.x), Abs(direction.y), size.width / 2.0, size.height / 2.0);
    TopBottomExitOnBoundary(center, direction, size);
    TopBottomExitAlong(center, direction, size);
  }

  /** The two ends of a line between two boxes: each where the line between the centres leaves its own box. */
  function Endpoints(sourcePosition: Point, sourceSize: Size, targetPosition: Point, targetSize: Size): (ends: (Point, Point))
    requires Positive(sourceSize) && Positive(targetSize)
    requires Center(sourcePosition, sourceSize) != Center(targetPosition, targetSize)
    ensures OnBoundary(ends.0, Center(sourcePosition, sourceSize), sourceSize)
    ensures OnBoundary(ends.1, Center(targetPosition, targetSize), targetSize)
  {
    var s := Center(sourcePosition, sourceSize);
    var t := Center(targetPosition, targetSize);
    var delta := Point(t.x - s.x, t.y - s.y);
    (Intersection(s, delta, sourceSize), Intersection(t, Point(-delta.x, -delta.y), targetSize))
  }

  /** The source end lies on the ray from the source centre towards the target centre, and the target end on the ray back. */
  lemma EndpointsFaceEachOther(sourcePosition: Point, sourceSize: Size, targetPosition: Point, targetSize: Size)
    requires Positive(sourceSize) && Positive(targetSize)
    requires Center(sourcePosition, sourceSize) != Center(targetPosition, targetSize)
    ensures var s := Center(sourcePosition, sourceSize);
            var t := Center(targetPosition, targetSize);
            var ends := Endpoints(sourcePosition, sourceSize, targetPosition, targetSize);
            exists a: real, b: real :: a > 0.0 && b > 0.0 && ends.0 == Along(s, t, a) && ends.1 == Along(t, s, b)
  {
    var s := Center(sourcePosition, sourceSize);
    var t := Center(targetPosition, targetSize);
    var delta := Point(t.x - s.x, t.y - s.y);
    var back := Point(-delta.x, -delta.y);
    assert Point(s.x + delta.x, s.y + delta.y) == t;
    assert Point(t.x + back.x, t.y + back.y) == s;
    var a := ExitRatio(delta, sourceSize);
    var b := ExitRatio(back, targetSize);
    assert Endpoints(sourcePosition, sourceSize, targetPosition, targetSize) == (Along(s, t, a), Along(t, s, b));
  }

  /** Swapping source and target swaps the two endpoints. */
  lemma EndpointsSwap(sourcePosition: Point, sourceSize: Size, targetPosition: Point, targetSize: Size)
    requires Positive(sourceSize) && Positive(targetSize)
    requires Center(sourcePosition, sourceSize) != Center(targetPosition, targetSize)
    ensures var ends := Endpoints(sourcePosition, sourceSize, targetPosition, targetSize);
            var swapped := Endpoints(targetPosition, targetSize, sourcePosition, sourceSize);
            swapped == (ends.1, ends.0)
  {
    var s := Center(sourcePosition, sourceSize);
    var t := Center(targetPosition, targetSize);
    assert Point(-(t.x - s.x), -(t.y - s.y)) == Point(s.x - t.x, s.y - t.y);
    assert Point(-(s.x - t.x), -(s.y - t.y)) == Point(t.x - s.x, t.y - s.y);
  }

  /** A measured size with each side raised to its floor. */
  function Floored(measured: Size, floor: Size): (s: Size)
    ensures s.width >= floor.width && s.height >= floor.height
    ensures measured.width >= floor.width ==> s.width == measured.width
    ensures measured.height >= floor.height ==> s.height == measured.height
    ensures s.width == floor.width || s.width == measured.width
    ensures s.height == floor.height || s.height == measured.height
  {
    Size(Max(floor.width, measured.width), Max(floor.height, measured.height))
  }

  /** `p` shifted by `(dx, dy)`. */
  function Offset(p: Point, dx: real, dy: real): (r: Point)
    ensures r.x - p.x == dx && r.y - p.y == dy
  {
    Point(p.x + dx, p.y + dy)
  }
}
