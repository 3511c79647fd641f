/**
  The client's pure helpers: distance from a point to a segment (the relay carries an
  identical copy), the screen/logical coordinate transform, and the avatar initials of a
  user id.

  Math.sqrt is not modelled: distances are returned SQUARED, and every comparison the source
  makes as `sqrt(d2) > r` is made as `r < 0 || d2 > r * r`, which is the same test on reals.
 */
module CanvasUtils {
  import opened Records
  import JsStrings

  datatype Point = Point(x: real, y: real)

  /** Pointer position of a mouse event (clientX, clientY). */
  datatype PointerEvent = PointerEvent(clientX: real, clientY: real)

  /** Top-left corner of the canvas element's bounding client rectangle. */
  datatype Rect = Rect(left: real, top: real)

  function Min(a: real, b: real): real { if a <= b then a else b }
  function Max(a: real, b: real): real { if a >= b then a else b }
  function Abs(a: real): real { if a < 0.0 then -a else a }

  function Sq(v: real): real { v * v }

  lemma SquareNonneg(v: real)
    ensures Sq(v) >= 0.0
  {}

  lemma MulPos(x: real, y: real)
    requires x > 0.0 && y > 0.0
    ensures x * y > 0.0
  {}

  lemma QuotientAboveOne(x: real, y: real)
    requires y > 0.0 && x / y > 1.0
    ensures x > y
  {}

  lemma QuotientBelowZero(x: real, y: real)
    requires y > 0.0 && x / y < 0.0
    ensures x < 0.0
  {}

  lemma MulNonneg(x: real, y: real)
    requires x >= 0.0 && y >= 0.0
    ensures x * y >= 0.0
  {}

  /** Only zero squares to zero. */
  lemma SquarePositive(v: real)
    requires v != 0.0
    ensures Sq(v) > 0.0
  {
    // the factors are written differently so that the solver keeps the product as a term
    if v > 0.0 {
      MulPos(v, Abs(v));
      assert Sq(v) == v * Abs(v);
    } else {
      MulPos(-v, Abs(v));
      assert Sq(v) == (-v) * Abs(v);
    }
  }

  /** A sum of two squares vanishes only when both terms do. */
  lemma SumOfSquaresZero(u: real, v: real)
    requires Sq(u) + Sq(v) == 0.0
    ensures u == 0.0 && v == 0.0
  {
    SquareNonneg(u);
    SquareNonneg(v);
    if u != 0.0 { SquarePositive(u); }
    if v != 0.0 { SquarePositive(v); }
  }

  lemma SquareOfDifference(u: real, v: real)
    ensures Sq(u - v) == Sq(u) - 2.0 * (u * v) + Sq(v)
  {}

  lemma SquareOfProduct(u: real, v: real)
    ensures Sq(u * v) == Sq(u) * Sq(v)
  {}

  /** Squared Euclidean distance between two points. */
  function DistSq(p: Point, q: Point): (d: real)
    ensures d >= 0.0
    ensures p == q ==> d == 0.0
  {
    SquareNonneg(p.x - q.x);
    SquareNonneg(p.y - q.y);
    Sq(p.x - q.x) + Sq(p.y - q.y)
  }

  /** `sqrt(d2) > r` for a squared distance `d2 >= 0`, without the square root. */
  predicate FartherThan(d2: real, r: real)
  {
    r < 0.0 || d2 > r * r
  }

  /** For a non-negative root `s` of `d2`, the test is exactly `s > r`: no square root is lost. */
  lemma FartherThanIsRootComparison(s: real, r: real)
    requires s >= 0.0
    ensures FartherThan(Sq(s), r) <==> s > r
  {
    if r >= 0.0 {
      if s > r {
        assert s * s - r * r == (s - r) * (s + r);
        MulPos(s - r, s + r);
      } else {
        assert r * r - s * s == (r - s) * (r + s);
        MulNonneg(r - s, r + s);
      }
    }
  }

  /** Being farther than `r` survives moving farther away. */
  lemma FartherThanMonotone(d1: real, d2: real, r: real)
    requires d1 <= d2 && FartherThan(d1, r)
    ensures FartherThan(d2, r)
  {}

  /** The point `start + t * (end - start)`; for 0 <= t <= 1 it lies on the segment. */
  function Along(start: Point, end: Point, t: real): Point
  {
    Point(start.x + t * (end.x - start.x), start.y + t * (end.y - start.y))
  }

  /** Squared length of the segment, `C*C + D*D` in the source. */
  function LengthSq(start: Point, end: Point): real
  {
    Sq(end.x - start.x) + Sq(end.y - start.y)
  }

  /** `A*C + B*D` in the source: the offset of `point` dotted with the segment's direction. */
  function Dot(point: Point, start: Point, end: Point): real
  {
    (point.x - start.x) * (end.x - start.x) + (point.y - start.y) * (end.y - start.y)
  }

  /**
    The projection parameter of `point` onto the segment, clamped to [0, 1]; a segment of
    length zero has its start point as nearest point.
   */
  function NearestParam(point: Point, start: Point, end: Point): (t: real)
    ensures 0.0 <= t <= 1.0
  {
    var lenSq := LengthSq(start, end);
    if lenSq == 0.0 then 0.0 else Max(0.0, Min(1.0, Dot(point, start, end) / lenSq))
  }

  /**
    distanceToLineSegment, squared: the distance from `point` to the start point when the
    segment has length zero, otherwise to the point of the segment at the projection
    parameter clamped to [0, 1].
   */
  function DistanceToSegmentSq(point: Point, start: Point, end: Point): (d: real)
    ensures d >= 0.0
    ensures d == DistSq(point, Along(start, end, NearestParam(point, start, end)))
  {
    var lenSq := LengthSq(start, end);
    if lenSq == 0.0 then
      assert Along(start, end, 0.0) == start;
      DistSq(point, start)
    else
      var param := Max(0.0, Min(1.0, Dot(point, start, end) / lenSq));
      DistSq(point, Along(start, end, param))
  }

  /** `f(t) = k - 2*t*dot + t*t*len`: the squared distance to the segment point at t. */
  function Quadratic(k: real, dot: real, len: real, t: real): real
  {
    k - 2.0 * t * dot + Sq(t) * len
  }

  /** Squared distance to `start + t*(end-start)` as a quadratic polynomial in t. */
  lemma AlongExpansion(point: Point, start: Point, end: Point, t: real)
    ensures DistSq(point, Along(start, end, t))
      == Quadratic(DistSq(point, start), Dot(point, start, end), LengthSq(start, end), t)
  {
    var a, b := point.x - start.x, point.y - start.y;
    var c, e := end.x - start.x, end.y - start.y;
    var p := Along(start, end, t);
    assert point.x - p.x == a - t * c;
    assert point.y - p.y == b - t * e;
    SquareOfDifference(a, t * c);
    SquareOfDifference(b, t * e);
    SquareOfProduct(t, c);
    SquareOfProduct(t, e);
  }

  /** When the projection falls before the start (dot < 0), f is least at t = 0. */
  lemma StartIsNearest(k: real, dot: real, len: real, t: real)
    requires dot < 0.0 && len >= 0.0 && 0.0 <= t
    ensures Quadratic(k, dot, len, 0.0) <= Quadratic(k, dot, len, t)
  {
    MulNonneg(t, t * len);
    MulNonneg(t, t * len - 2.0 * dot);
    assert Quadratic(k, dot, len, t) - Quadratic(k, dot, len, 0.0) == t * (t * len - 2.0 * dot);
  }

  /** When the projection falls past the end (dot > len), f is least at t = 1. */
  lemma EndIsNearest(k: real, dot: real, len: real, t: real)
    requires dot > len >= 0.0 && t <= 1.0
    ensures Quadratic(k, dot, len, 1.0) <= Quadratic(k, dot, len, t)
  {
    MulNonneg(1.0 - t, len);
    assert 2.0 * dot - (t + 1.0) * len >= 0.0;
    MulNonneg(1.0 - t, 2.0 * dot - (t + 1.0) * len);
    assert Quadratic(k, dot, len, t) - Quadratic(k, dot, len, 1.0)
      == (1.0 - t) * (2.0 * dot - (t + 1.0) * len);
  }

  /** At the unclamped projection q = dot / len, f is least: f(t) - f(q) = len * (t - q)^2. */
  lemma ProjectionIsNearest(k: real, dot: real, len: real, t: real)
    requires len > 0.0
    ensures Quadratic(k, dot, len, dot / len) <= Quadratic(k, dot, len, t)
  {
    var q := dot / len;
    assert dot == q * len;
    SquareNonneg(t - q);
    MulNonneg(len, Sq(t - q));
    SquareOfDifference(t, q);
    assert Quadratic(k, dot, len, t) - Quadratic(k, dot, len, q) == len * Sq(t - q);
  }

  /**
    The clamped projection is the nearest point of the segment: no point of the segment is
    closer to `point` than the one the source picks.
   */
  lemma {:induction false} DistanceIsMinimumOverSegment(point: Point, start: Point, end: Point, t: real)
    requires 0.0 <= t <= 1.0
    ensures DistanceToSegmentSq(point, start, end) <= DistSq(point, Along(start, end, t))
  {
    var c, e := end.x - start.x, end.y - start.y;
    var k, dot, len := DistSq(point, start), Dot(point, start, end), LengthSq(start, end);
    if len == 0.0 {
      SumOfSquaresZero(c, e);
      assert Along(start, end, t) == start;
    } else {
      SquareNonneg(c);
      SquareNonneg(e);
      var q := dot / len;
      var p := NearestParam(point, start, end);
      AlongExpansion(point, start, end, p);
      AlongExpansion(point, start, end, t);
      if q < 0.0 {
        QuotientBelowZero(dot, len);
        StartIsNearest(k, dot, len, t);
      } else if q > 1.0 {
        QuotientAboveOne(dot, len);
        EndIsNearest(k, dot, len, t);
      } else {
        ProjectionIsNearest(k, dot, len, t);
      }
    }
  }

  /** A zero-length segment is at the distance of its single point. */
  lemma DegenerateSegment(point: Point, start: Point)
    ensures DistanceToSegmentSq(point, start, start) == DistSq(point, start)
  {}

  /** The worked example: segment (0,0)-(10,0) is at distance 1 from (5,1), so within 1.5. */
  lemma DistanceExample(point: Point, start: Point, end: Point)
    requires point == Point(5.0, 1.0) && start == Point(0.0, 0.0) && end == Point(10.0, 0.0)
    ensures DistanceToSegmentSq(point, start, end) == 1.0
    ensures !FartherThan(DistanceToSegmentSq(point, start, end), 1.5)
    ensures FartherThan(DistanceToSegmentSq(point, start, end), 0.5)
  {
    ExampleParam(point, start, end);
    ExampleNearestPoint(point, start, end);
  }

  lemma ExampleParam(point: Point, start: Point, end: Point)
    requires point == Point(5.0, 1.0) && start == Point(0.0, 0.0) && end == Point(10.0, 0.0)
    ensures NearestParam(point, start, end) == 0.5
  {
    var dx, dy := end.x - start.x, end.y - start.y;
    assert dx == 10.0 && dy == 0.0;
    assert Sq(dx) == 100.0 by { assert Sq(dx) == dx * dx; }
    assert Sq(dy) == 0.0 by { assert Sq(dy) == dy * dy; }
    assert LengthSq(start, end) == 100.0;
    assert Dot(point, start, end) == 50.0 by {
      assert point.x - start.x == 5.0 && point.y - start.y == 1.0;
    }
    assert 50.0 / 100.0 == 0.5;
  }

  lemma ExampleNearestPoint(point: Point, start: Point, end: Point)
    requires point == Point(5.0, 1.0) && start == Point(0.0, 0.0) && end == Point(10.0, 0.0)
    ensures DistSq(point, Along(start, end, 0.5)) == 1.0
  {
    ExampleAlong(start, end);
    ExampleDistSq(point, Along(start, end, 0.5));
  }

  lemma ExampleAlong(start: Point, end: Point)
    requires start == Point(0.0, 0.0) && end == Point(10.0, 0.0)
    ensures Along(start, end, 0.5) == Point(5.0, 0.0)
  {
    var q := Along(start, end, 0.5);
    assert q.x == 5.0 by { assert q.x == start.x + 0.5 * (end.x - start.x); }
    assert q.y == 0.0 by { assert q.y == start.y + 0.5 * (end.y - start.y); }
  }

  lemma ExampleDistSq(point: Point, q: Point)
    requires point == Point(5.0, 1.0) && q == Point(5.0, 0.0)
    ensures DistSq(point, q) == 1.0
  {
    var u, v := point.x - q.x, point.y - q.y;
    assert u == 0.0 && v == 1.0;
    assert Sq(u) == 0.0 by { assert Sq(u) == u * u; }
    assert Sq(v) == 1.0 by { assert Sq(v) == v * v; }
  }

  lemma DivThenMul(a: real, k: real)
    requires k != 0.0
    ensures a / k * k == a
  {}

  /** screen = logical * scale + pan, per axis (VoiceNotes, TextInput, the eraser trail). */
  function LogicalToScreen(p: Point, scale: real, panX: real, panY: real): Point
  {
    Point(p.x * scale + panX, p.y * scale + panY)
  }

  /** logical = (screen - pan) / scale, per axis. */
  function ScreenToLogical(s: Point, scale: real, panX: real, panY: real): (p: Point)
    requires scale != 0.0
    ensures LogicalToScreen(p, scale, panX, panY) == s
  {
    var p := Point((s.x - panX) / scale, (s.y - panY) / scale);
    DivThenMul(s.x - panX, scale);
    DivThenMul(s.y - panY, scale);
    assert p.x * scale + panX == s.x && p.y * scale + panY == s.y;
    p
  }

  /** getLogicalCoordinates: the pointer relative to the canvas, then screen to logical. */
  function GetLogicalCoordinates(ev: PointerEvent, rect: Rect, scale: real, panX: real, panY: real): (p: Point)
    requires scale != 0.0
    ensures p.x * scale + panX == ev.clientX - rect.left
    ensures p.y * scale + panY == ev.clientY - rect.top
  {
    ScreenToLogical(Point(ev.clientX - rect.left, ev.clientY - rect.top), scale, panX, panY)
  }

  /** Logical to screen and back is the identity (the other direction is ScreenToLogical's ensures). */
  lemma LogicalRoundTrip(p: Point, scale: real, panX: real, panY: real)
    requires scale != 0.0
    ensures ScreenToLogical(LogicalToScreen(p, scale, panX, panY), scale, panX, panY) == p
  {
    var s := LogicalToScreen(p, scale, panX, panY);
    assert (s.x - panX) / scale == p.x * scale / scale == p.x;
    assert (s.y - panY) / scale == p.y * scale / scale == p.y;
  }

  /**
    getUserInitials: 'U' when the id is falsy (absent or empty), otherwise its first two
    characters (or its only one) upper-cased.
   */
  function GetUserInitials(userId: Option<string>): (r: string)
    ensures 1 <= |r| <= 2
    ensures userId.None? || userId.value == "" ==> r == "U"
    ensures userId.Some? && userId.value != "" ==>
      |r| == (if |userId.value| < 2 then |userId.value| else 2)
      && forall k :: 0 <= k < |r| ==> r[k] == JsStrings.UpperChar(userId.value[k])
    ensures forall k :: 0 <= k < |r| ==> !('a' <= r[k] <= 'z')
  {
    if userId.None? || userId.value == "" then "U"
    else
      var id := userId.value;
      JsStrings.ToUpperCase(if |id| < 2 then id else id[..2])
  }
}
