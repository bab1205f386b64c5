/** Sampling a circle around the world origin into an ordered list of points.
    The trigonometric functions are parameters: the model assumes nothing of
    them except where a lemma says so. */
module TrajectoryGenerator {
  import opened Geometry
  import Config

  /** The number of points the generator's loop produces. */
  function PointCount(numPoints: int): nat
  {
    if numPoints <= 0 then 0 else numPoints
  }

  /** The angle of point `i`: the fraction i / numPoints of a full turn. */
  function Angle(i: int, numPoints: int): (a: real)
    requires numPoints > 0
    ensures a * numPoints as real == 2.0 * Config.PI * i as real
  {
    var f := i as real / numPoints as real;
    assert f * numPoints as real == i as real;
    f * 2.0 * Config.PI
  }

  function CirclePoint(radius: real, angle: real, cos: real -> real, sin: real -> real): Point
  {
    Point(radius * cos(angle), radius * sin(angle))
  }

  /** `points` is the circle of `numPoints` samples: the right count, and point
      `i` taken at angle `i`, in increasing order of `i`. */
  ghost predicate IsCircular(points: seq<Point>, radius: real, numPoints: int,
                             cos: real -> real, sin: real -> real)
  {
    && |points| == PointCount(numPoints)
    && forall i :: 0 <= i < |points| ==> points[i] == CirclePoint(radius, Angle(i, numPoints), cos, sin)
  }

  /** The generator's loop, which appends one point per index. */
  method GenerateCircular(radius: real, numPoints: int, cos: real -> real, sin: real -> real)
    returns (points: seq<Point>)
    ensures IsCircular(points, radius, numPoints, cos, sin)
  {
    points := [];
    var i := 0;
    while i < numPoints
      invariant 0 <= i <= PointCount(numPoints)
      invariant |points| == i
      invariant forall k :: 0 <= k < i ==> points[k] == CirclePoint(radius, Angle(k, numPoints), cos, sin)
    {
      var angle := (i as real / numPoints as real) * 2.0 * Config.PI;
      points := points + [Point(radius * cos(angle), radius * sin(angle))];
      i := i + 1;
    }
  }

  /** The description determines the list: two circles generated from the same
      arguments are the same list. */
  lemma CircularUnique(p: seq<Point>, q: seq<Point>, radius: real, numPoints: int,
                       cos: real -> real, sin: real -> real)
    requires IsCircular(p, radius, numPoints, cos, sin)
    requires IsCircular(q, radius, numPoints, cos, sin)
    ensures p == q
  {
    assert forall i :: 0 <= i < |p| ==> p[i] == q[i];
  }

  /** A non-positive count gives no points at all. */
  lemma NonPositiveCountIsEmpty(points: seq<Point>, radius: real, numPoints: int,
                                cos: real -> real, sin: real -> real)
    requires IsCircular(points, radius, numPoints, cos, sin)
    requires numPoints <= 0
    ensures points == []
  {
  }

  /** Every angle lies in the half-open turn [0, 2 pi). */
  lemma AngleInRange(i: int, numPoints: int)
    requires 0 <= i < numPoints
    ensures 0.0 <= Angle(i, numPoints) < 2.0 * Config.PI
  {
    var f := i as real / numPoints as real;
    assert f * numPoints as real == i as real;
    assert 0.0 <= f < 1.0;
  }

  /** Angles strictly increase with the index, so no sample repeats another. */
  lemma AnglesIncrease(i: int, j: int, numPoints: int)
    requires 0 <= i < j && 0 < numPoints
    ensures Angle(i, numPoints) < Angle(j, numPoints)
  {
    var n := numPoints as real;
    assert (i as real / n) * n == i as real;
    assert (j as real / n) * n == j as real;
    assert i as real / n < j as real / n;
  }

  /** The first angle is 0 and consecutive angles are a constant 2 pi / n apart. */
  lemma EvenSpacing(i: int, numPoints: int)
    requires numPoints > 0
    ensures Angle(0, numPoints) == 0.0
    ensures Angle(i + 1, numPoints) - Angle(i, numPoints) == 2.0 * Config.PI / numPoints as real
  {
    var n := numPoints as real;
    assert (i + 1) as real / n == i as real / n + 1.0 / n;
  }

  /** If cos 0 = 1 and sin 0 = 0, the first sample is the point (radius, 0). */
  lemma FirstPointOnAxis(points: seq<Point>, radius: real, numPoints: int,
                         cos: real -> real, sin: real -> real)
    requires IsCircular(points, radius, numPoints, cos, sin)
    requires numPoints > 0
    requires cos(0.0) == 1.0 && sin(0.0) == 0.0
    ensures points[0] == Point(radius, 0.0)
  {
    assert Angle(0, numPoints) == 0.0;
  }

  /** If cos and sin satisfy the Pythagorean identity, every sample lies at
      distance `radius` from the origin. */
  lemma PointsOnCircle(points: seq<Point>, radius: real, numPoints: int,
                       cos: real -> real, sin: real -> real, i: int)
    requires IsCircular(points, radius, numPoints, cos, sin)
    requires forall a :: cos(a) * cos(a) + sin(a) * sin(a) == 1.0
    requires 0 <= i < |points|
    ensures points[i].x * points[i].x + points[i].y * points[i].y == radius * radius
  {
    var a := Angle(i, numPoints);
    var c, s := cos(a), sin(a);
    assert points[i] == Point(radius * c, radius * s);
    calc {
      (radius * c) * (radius * c) + (radius * s) * (radius * s);
      radius * radius * (c * c + s * s);
      radius * radius;
    }
  }
}
