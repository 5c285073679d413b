/**
 * Points on the canvas and the distance helpers of the client utilities.
 * `Math.sqrt` is the parameter `sqrt`, assumed only to obey the law of the
 * exact square root (`IsSqrt`).
 */
module Geometry {
  import opened Config

  /** A point in canvas pixels. */
  datatype Point = Point(x: real, y: real)

  /** `sqrt` is the non-negative square root on the non-negative reals. */
  ghost predicate IsSqrt(sqrt: real -> real)
  {
    forall x :: 0.0 <= x ==> 0.0 <= sqrt(x) && sqrt(x) * sqrt(x) == x
  }

  /** The squared Euclidean distance; needs no square root. */
  function SquaredDistance(p1: Point, p2: Point): (d: real)
    ensures d >= 0.0
  {
    (p2.x - p1.x) * (p2.x - p1.x) + (p2.y - p1.y) * (p2.y - p1.y)
  }

  /** `getDistance`: the Euclidean distance between two points. */
  function Distance(sqrt: real -> real, p1: Point, p2: Point): (d: real)
    requires IsSqrt(sqrt)
    ensures d >= 0.0
    ensures d * d == SquaredDistance(p1, p2)
  {
    sqrt(SquaredDistance(p1, p2))
  }

  lemma ProductPositive(a: real, b: real)
    requires a > 0.0 && b > 0.0
    ensures a * b > 0.0
  {
  }

  lemma ProductNonNegative(a: real, b: real)
    requires a >= 0.0 && b >= 0.0
    ensures a * b >= 0.0
  {
  }

  /** Squaring is strictly monotone on the non-negative reals. */
  lemma SquareMonotone(a: real, b: real)
    requires 0.0 <= a && 0.0 <= b
    ensures a <= b <==> a * a <= b * b
  {
    if a <= b {
      ProductNonNegative(a, b - a);
      ProductNonNegative(b, b - a);
      assert a * (b - a) == a * b - a * a;
      assert b * (b - a) == b * b - a * b;
    } else {
      ProductNonNegative(b, a - b);
      ProductPositive(a, a - b);
      assert b * (a - b) == a * b - b * b;
      assert a * (a - b) == a * a - a * b;
    }
  }

  /** The distance is symmetric in its arguments. */
  lemma DistanceSymmetric(sqrt: real -> real, p1: Point, p2: Point)
    requires IsSqrt(sqrt)
    ensures Distance(sqrt, p1, p2) == Distance(sqrt, p2, p1)
  {
    assert SquaredDistance(p1, p2) == SquaredDistance(p2, p1);
  }

  /** A square is zero only for zero. */
  lemma SquareZero(a: real)
    requires a * a <= 0.0
    ensures a == 0.0
  {
    var b := if a < 0.0 then -a else a;
    assert b * b == a * a;
    SquareMonotone(b, 0.0);
  }

  /** The squared distance vanishes exactly between identical points. */
  lemma SquaredDistanceZeroIff(p1: Point, p2: Point)
    ensures SquaredDistance(p1, p2) == 0.0 <==> p1 == p2
  {
    var dx, dy := p2.x - p1.x, p2.y - p1.y;
    if SquaredDistance(p1, p2) == 0.0 {
      SquareMonotone(0.0, if dx < 0.0 then -dx else dx);
      SquareMonotone(0.0, if dy < 0.0 then -dy else dy);
      SquareZero(dx);
      SquareZero(dy);
    }
  }

  /** The square root of a non-negative number is zero only at zero. */
  lemma SqrtZeroIff(sqrt: real -> real, x: real)
    requires IsSqrt(sqrt) && x >= 0.0
    ensures sqrt(x) == 0.0 <==> x == 0.0
  {
    SquareMonotone(sqrt(x), 0.0);
  }

  /** The distance is zero exactly between identical points. */
  lemma DistanceZeroIff(sqrt: real -> real, p1: Point, p2: Point)
    requires IsSqrt(sqrt)
    ensures Distance(sqrt, p1, p2) == 0.0 <==> p1 == p2
  {
    SqrtZeroIff(sqrt, SquaredDistance(p1, p2));
    SquaredDistanceZeroIff(p1, p2);
  }

  /** Comparing distances is comparing squared distances. */
  lemma DistanceAtMostIff(sqrt: real -> real, p1: Point, p2: Point, bound: real)
    requires IsSqrt(sqrt) && bound >= 0.0
    ensures Distance(sqrt, p1, p2) <= bound <==> SquaredDistance(p1, p2) <= bound * bound
  {
    SquareMonotone(Distance(sqrt, p1, p2), bound);
  }

  /** `checkInCenter`: whether `point` lies in the centre zone around (centerX, centerY). */
  function CheckInCenter(sqrt: real -> real, cfg: GameConfig, point: Point, centerX: real, centerY: real): bool
    requires IsSqrt(sqrt)
  {
    Distance(sqrt, point, Point(centerX, centerY)) <= cfg.centerTolerance
  }

  /**
   * The centre zone is the closed disc of radius CENTER_TOLERANCE, described
   * without a square root.
   */
  lemma CheckInCenterIff(sqrt: real -> real, cfg: GameConfig, point: Point, centerX: real, centerY: real)
    requires IsSqrt(sqrt)
    ensures CheckInCenter(sqrt, cfg, point, centerX, centerY)
        <==> (point.x - centerX) * (point.x - centerX) + (point.y - centerY) * (point.y - centerY)
             <= cfg.centerTolerance * cfg.centerTolerance
  {
    DistanceAtMostIff(sqrt, point, Point(centerX, centerY), cfg.centerTolerance);
  }
}
