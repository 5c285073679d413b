/**
 * The per-round scores of the client utilities: movement accuracy, hit
 * distance and reaction time, each in `[0, MAX_SCORE_PER_CATEGORY]`, and the
 * round total.
 */
module Scoring {
  import opened Config
  import opened JsMath
  import opened Geometry
  import opened GameTypes

  /** `maxDeviation` of the accuracy score, in pixels. */
  const MaxDeviation: real := 50.0
  /** `idealTimeMs` of the time score. */
  const IdealTimeMs: real := 100.0
  /** `maxTimeDeviation` of the time score, in milliseconds. */
  const MaxTimeDeviation: real := 1000.0

  /** Multiplying by a positive number keeps the order, in both directions. */
  lemma ScaleOrder(x: real, y: real, b: real)
    requires b > 0.0
    ensures x <= y <==> x * b <= y * b
  {
    assert (y - x) * b == y * b - x * b;
    if x <= y {
      ProductNonNegative(y - x, b);
    } else {
      ProductPositive(x - y, b);
      assert (x - y) * b == x * b - y * b;
    }
  }

  /** Facts about `a / b` for `a >= 0 < b`. */
  lemma QuotientFacts(a: real, b: real)
    requires a >= 0.0 && b > 0.0
    ensures a / b >= 0.0
    ensures a / b >= 1.0 <==> a >= b
    ensures a / b <= 1.0 <==> a <= b
    ensures a / b == 0.0 <==> a == 0.0
  {
    var q := a / b;
    assert q * b == a;
    assert 0.0 * b == 0.0 && 1.0 * b == b;
    ScaleOrder(0.0, q, b);
    assert 0.0 <= q;
    ScaleOrder(q, 0.0, b);
    assert q <= 0.0 <==> a <= 0.0;
    ScaleOrder(1.0, q, b);
    assert 1.0 <= q <==> b <= a;
    ScaleOrder(q, 1.0, b);
    assert q <= 1.0 <==> a <= b;
  }

  /** Dividing by a positive number keeps the order. */
  lemma QuotientMonotone(a: real, b: real, c: real)
    requires a <= b && c > 0.0
    ensures a / c <= b / c
  {
    var qa, qb := a / c, b / c;
    assert qa * c == a && qb * c == b;
    if qa > qb {
      ProductPositive(qa - qb, c);
    }
  }

  /** Multiplying by a positive number and dividing by it again gives the number back. */
  lemma CancelFactor(n: real, b: real)
    requires n > 0.0
    ensures (n * b) / n == b
  {
    var q := (n * b) / n;
    assert q * n == n * b;
    if q > b {
      ProductPositive(q - b, n);
    } else if q < b {
      ProductPositive(b - q, n);
    }
  }

  /** Facts about `m * (1 - x)` for `m > 0` and `x` in `[0, 1]`. */
  lemma ScaleFacts(m: real, x: real)
    requires m > 0.0 && 0.0 <= x <= 1.0
    ensures 0.0 <= m * (1.0 - x) <= m
    ensures m * (1.0 - x) == m <==> x == 0.0
    ensures m * (1.0 - x) == 0.0 <==> x == 1.0
  {
    ProductNonNegative(m, 1.0 - x);
    ProductNonNegative(m, x);
    if x > 0.0 {
      ProductPositive(m, x);
    }
    if x < 1.0 {
      ProductPositive(m, 1.0 - x);
    }
  }

  /**
   * `Math.max(0, maxScore * (1 - Math.min(1, deviation / maxDeviation)))`:
   * the shape shared by the accuracy and time scores.
   */
  function ClampedScore(maxScore: real, deviation: real, maxDeviation: real): (s: real)
    requires maxScore > 0.0 && deviation >= 0.0 && maxDeviation > 0.0
    ensures 0.0 <= s <= maxScore
    ensures s == maxScore <==> deviation == 0.0
    ensures s == 0.0 <==> deviation >= maxDeviation
  {
    var normalized := Min(1.0, deviation / maxDeviation);
    QuotientFacts(deviation, maxDeviation);
    ScaleFacts(maxScore, normalized);
    Max(0.0, maxScore * (1.0 - normalized))
  }

  /** A larger deviation never scores more. */
  lemma ClampedScoreMonotone(maxScore: real, d1: real, d2: real, maxDeviation: real)
    requires maxScore > 0.0 && 0.0 <= d1 <= d2 && maxDeviation > 0.0
    ensures ClampedScore(maxScore, d1, maxDeviation) >= ClampedScore(maxScore, d2, maxDeviation)
  {
    QuotientMonotone(d1, d2, maxDeviation);
    var n1, n2 := Min(1.0, d1 / maxDeviation), Min(1.0, d2 / maxDeviation);
    ProductNonNegative(maxScore, n2 - n1);
    assert maxScore * (1.0 - n1) - maxScore * (1.0 - n2) == maxScore * (n2 - n1);
  }

  // ---------------------------------------------------------------------
  // calculateAccuracyScore

  /**
   * The point the path ideally passes through at sample `i` of `n`:
   * `start + (end - start) * i / (n - 1)`, running from `start` to `end`.
   */
  function IdealPoint(start: Point, end: Point, i: nat, n: nat): (p: Point)
    requires n >= 2 && i < n
    ensures i == 0 ==> p == start
    ensures i == n - 1 ==> p == end
  {
    var last := (n - 1) as real;
    var progress := i as real / last;
    assert i == n - 1 ==> progress == 1.0 by {
      if i == n - 1 {
        CancelFactor(last, 1.0);
        assert last * 1.0 == last;
      }
    }
    Point(start.x + (end.x - start.x) * progress, start.y + (end.y - start.y) * progress)
  }

  /** How far sample `i` of `path` lies from its ideal point. */
  function Deviation(sqrt: real -> real, path: seq<Point>, start: Point, end: Point, i: nat): (d: real)
    requires IsSqrt(sqrt) && |path| >= 2 && i < |path|
    ensures d >= 0.0
  {
    Distance(sqrt, path[i], IdealPoint(start, end, i, |path|))
  }

  /** The deviations of the first `k` samples, added up. */
  function TotalDeviation(sqrt: real -> real, path: seq<Point>, start: Point, end: Point, k: nat): (t: real)
    requires IsSqrt(sqrt) && |path| >= 2 && k <= |path|
    ensures t >= 0.0
  {
    if k == 0 then 0.0
    else TotalDeviation(sqrt, path, start, end, k - 1) + Deviation(sqrt, path, start, end, k - 1)
  }

  /** `averageDeviation`: the mean deviation over the whole path. */
  function MeanDeviation(sqrt: real -> real, path: seq<Point>, start: Point, end: Point): (m: real)
    requires IsSqrt(sqrt) && |path| >= 2
    ensures m >= 0.0
  {
    var total := TotalDeviation(sqrt, path, start, end, |path|);
    QuotientFacts(total, |path| as real);
    total / |path| as real
  }

  /** Every sample of `path` sits exactly on its ideal point. */
  predicate OnIdealLine(path: seq<Point>, start: Point, end: Point)
    requires |path| >= 2
  {
    forall i :: 0 <= i < |path| ==> path[i] == IdealPoint(start, end, i, |path|)
  }

  /**
   * `calculateAccuracyScore(path, targetPosition, centerX, centerY)`: 0 for
   * a path of fewer than two samples; otherwise the clamped score of the
   * mean deviation from the straight line between the centre and the target.
   */
  function AccuracyScore(sqrt: real -> real, cfg: GameConfig, path: seq<Point>, target: Point, centerX: real, centerY: real): (s: real)
    requires IsSqrt(sqrt)
    ensures 0.0 <= s <= cfg.maxScorePerCategory as real
    ensures |path| < 2 ==> s == 0.0
    ensures |path| >= 2 ==> (s == 0.0 <==> MeanDeviation(sqrt, path, Point(centerX, centerY), target) >= MaxDeviation)
  {
    if |path| < 2 then 0.0
    else ClampedScore(cfg.maxScorePerCategory as real, MeanDeviation(sqrt, path, Point(centerX, centerY), target), MaxDeviation)
  }

  /** The deviations of a prefix add up to zero exactly when each of its samples is on the ideal line. */
  lemma {:induction false} TotalDeviationZeroIff(sqrt: real -> real, path: seq<Point>, start: Point, end: Point, k: nat)
    requires IsSqrt(sqrt) && |path| >= 2 && k <= |path|
    ensures TotalDeviation(sqrt, path, start, end, k) == 0.0
        <==> forall i :: 0 <= i < k ==> path[i] == IdealPoint(start, end, i, |path|)
  {
    if k > 0 {
      TotalDeviationZeroIff(sqrt, path, start, end, k - 1);
      DistanceZeroIff(sqrt, path[k - 1], IdealPoint(start, end, k - 1, |path|));
    }
  }

  /** A path of at least two samples earns the full accuracy score exactly when it follows the ideal line. */
  lemma AccuracyScorePerfectIff(sqrt: real -> real, cfg: GameConfig, path: seq<Point>, target: Point, centerX: real, centerY: real)
    requires IsSqrt(sqrt) && |path| >= 2
    ensures AccuracyScore(sqrt, cfg, path, target, centerX, centerY) == cfg.maxScorePerCategory as real
        <==> OnIdealLine(path, Point(centerX, centerY), target)
  {
    var start := Point(centerX, centerY);
    TotalDeviationZeroIff(sqrt, path, start, target, |path|);
    QuotientFacts(TotalDeviation(sqrt, path, start, target, |path|), |path| as real);
  }

  /** If no sample deviates by more than `bound`, the first `k` deviations add up to at most `k * bound`. */
  lemma {:induction false} TotalDeviationAtMost(sqrt: real -> real, path: seq<Point>, start: Point, end: Point, k: nat, bound: real)
    requires IsSqrt(sqrt) && |path| >= 2 && k <= |path|
    requires forall i :: 0 <= i < |path| ==> Deviation(sqrt, path, start, end, i) <= bound
    ensures TotalDeviation(sqrt, path, start, end, k) <= k as real * bound
  {
    if k > 0 {
      TotalDeviationAtMost(sqrt, path, start, end, k - 1, bound);
      var prev, d := TotalDeviation(sqrt, path, start, end, k - 1), Deviation(sqrt, path, start, end, k - 1);
      assert TotalDeviation(sqrt, path, start, end, k) == prev + d;
      assert d <= bound;
      StepBound(prev, d, k, bound);
    }
  }

  /** One more term of at most `bound` raises a bound of `(k - 1) * bound` to `k * bound`. */
  lemma StepBound(prev: real, d: real, k: nat, bound: real)
    requires k >= 1 && prev <= (k - 1) as real * bound && d <= bound
    ensures prev + d <= k as real * bound
  {
    assert k as real * bound == (k - 1) as real * bound + bound;
  }

  /** If no sample deviates by more than `bound`, neither does the mean. */
  lemma MeanDeviationAtMost(sqrt: real -> real, path: seq<Point>, start: Point, end: Point, bound: real)
    requires IsSqrt(sqrt) && |path| >= 2
    requires forall i :: 0 <= i < |path| ==> Deviation(sqrt, path, start, end, i) <= bound
    ensures MeanDeviation(sqrt, path, start, end) <= bound
  {
    var n := |path| as real;
    var total := TotalDeviation(sqrt, path, start, end, |path|);
    TotalDeviationAtMost(sqrt, path, start, end, |path|, bound);
    QuotientAtMost(total, n, bound);
    assert MeanDeviation(sqrt, path, start, end) == total / n;
  }

  /** A total of at most `n * bound` over `n > 0` items averages at most `bound`. */
  lemma QuotientAtMost(total: real, n: real, bound: real)
    requires n > 0.0 && total <= n * bound
    ensures total / n <= bound
  {
    QuotientMonotone(total, n * bound, n);
    CancelFactor(n, bound);
  }

  /**
   * If no sample deviates by more than `bound` from the ideal line, the path
   * scores at least what a mean deviation of `bound` scores.
   */
  lemma AccuracyScoreLowerBound(sqrt: real -> real, cfg: GameConfig, path: seq<Point>, target: Point, centerX: real, centerY: real, bound: real)
    requires IsSqrt(sqrt) && |path| >= 2 && bound >= 0.0
    requires forall i :: 0 <= i < |path| ==> Deviation(sqrt, path, Point(centerX, centerY), target, i) <= bound
    ensures AccuracyScore(sqrt, cfg, path, target, centerX, centerY)
        >= ClampedScore(cfg.maxScorePerCategory as real, bound, MaxDeviation)
  {
    var start := Point(centerX, centerY);
    MeanDeviationAtMost(sqrt, path, start, target, bound);
    var mean := MeanDeviation(sqrt, path, start, target);
    assert AccuracyScore(sqrt, cfg, path, target, centerX, centerY)
        == ClampedScore(cfg.maxScorePerCategory as real, mean, MaxDeviation);
    ClampedScoreMonotone(cfg.maxScorePerCategory as real, mean, bound, MaxDeviation);
  }

  /**
   * The loop of `calculateAccuracyScore`, accumulating `totalDeviation`
   * sample by sample; each ideal point is `IdealPoint`, the closing clamp `ClampedScore`.
   */
  method CalculateAccuracyScore(sqrt: real -> real, cfg: GameConfig, path: seq<Point>, target: Point, centerX: real, centerY: real)
    returns (score: real)
    requires IsSqrt(sqrt)
    ensures score == AccuracyScore(sqrt, cfg, path, target, centerX, centerY)
  {
    if |path| < 2 {
      return 0.0;
    }
    var start := Point(centerX, centerY);
    var end := target;
    var totalDeviation := 0.0;
    var pathLength := |path|;
    for i := 0 to pathLength
      invariant totalDeviation == TotalDeviation(sqrt, path, start, end, i)
    {
      var point := path[i];
      var ideal := IdealPoint(start, end, i, pathLength);
      var deviation := Distance(sqrt, point, ideal);
      totalDeviation := totalDeviation + deviation;
    }
    var averageDeviation := totalDeviation / pathLength as real;
    score := ClampedScore(cfg.maxScorePerCategory as real, averageDeviation, MaxDeviation);
  }

  // ---------------------------------------------------------------------
  // calculateDistanceFromCenter

  /**
   * `calculateDistanceFromCenter(finalPosition, targetPosition)`: the full
   * score on the target's centre, falling linearly to 0 at TARGET_SIZE and 0
   * beyond it.
   */
  function DistanceScore(sqrt: real -> real, cfg: GameConfig, finalPosition: Point, target: Point): (s: real)
    requires IsSqrt(sqrt)
    ensures 0.0 <= s <= cfg.maxScorePerCategory as real
    ensures s == cfg.maxScorePerCategory as real <==> finalPosition == target
    ensures s == 0.0 <==> Distance(sqrt, finalPosition, target) >= cfg.targetSize
  {
    var distance := Distance(sqrt, finalPosition, target);
    var maxDistance := cfg.targetSize;
    var maxScore := cfg.maxScorePerCategory as real;
    DistanceZeroIff(sqrt, finalPosition, target);
    QuotientFacts(distance, maxDistance);
    ScaleFacts(maxScore, Min(1.0, distance / maxDistance));
    if distance <= maxDistance then maxScore - (distance / maxDistance) * maxScore else 0.0
  }

  /** A click farther from the target never scores more. */
  lemma DistanceScoreMonotone(sqrt: real -> real, cfg: GameConfig, p1: Point, p2: Point, target: Point)
    requires IsSqrt(sqrt) && Distance(sqrt, p1, target) <= Distance(sqrt, p2, target)
    ensures DistanceScore(sqrt, cfg, p1, target) >= DistanceScore(sqrt, cfg, p2, target)
  {
    var d1, d2 := Distance(sqrt, p1, target), Distance(sqrt, p2, target);
    if d2 <= cfg.targetSize {
      QuotientMonotone(d1, d2, cfg.targetSize);
      ProductNonNegative(d2 / cfg.targetSize - d1 / cfg.targetSize, cfg.maxScorePerCategory as real);
    }
  }

  // ---------------------------------------------------------------------
  // calculateTimeScore

  /** `calculateTimeScore(actualTimeMs)`: the clamped score of the distance from 100 ms. */
  function TimeScore(cfg: GameConfig, actualTimeMs: real): (s: real)
    ensures 0.0 <= s <= cfg.maxScorePerCategory as real
    ensures s == cfg.maxScorePerCategory as real <==> actualTimeMs == IdealTimeMs
    ensures s == 0.0 <==> Abs(actualTimeMs - IdealTimeMs) >= MaxTimeDeviation
  {
    ClampedScore(cfg.maxScorePerCategory as real, Abs(actualTimeMs - IdealTimeMs), MaxTimeDeviation)
  }

  /** The time score depends only on `|t - 100|` and never rises as it grows. */
  lemma TimeScoreMonotone(cfg: GameConfig, t1: real, t2: real)
    requires Abs(t1 - IdealTimeMs) <= Abs(t2 - IdealTimeMs)
    ensures TimeScore(cfg, t1) >= TimeScore(cfg, t2)
    ensures Abs(t1 - IdealTimeMs) == Abs(t2 - IdealTimeMs) ==> TimeScore(cfg, t1) == TimeScore(cfg, t2)
  {
    ClampedScoreMonotone(cfg.maxScorePerCategory as real, Abs(t1 - IdealTimeMs), Abs(t2 - IdealTimeMs), MaxTimeDeviation);
  }

  /** A click in the same millisecond as the round's start scores nine tenths of the maximum. */
  lemma TimeScoreAtZero(cfg: GameConfig)
    ensures TimeScore(cfg, 0.0) == 0.9 * cfg.maxScorePerCategory as real
  {
    assert Abs(0.0 - IdealTimeMs) / MaxTimeDeviation == 0.1;
  }

  // ---------------------------------------------------------------------
  // getTotalScore

  /** `getTotalScore(result)`: the sum of the round's three scores. */
  function TotalScore(r: RoundResult): int
  {
    r.accuracyScore + r.distanceFromCenter + r.time.score
  }

  /** A round whose three scores are in range totals between 0 and three times the maximum; 300 with scores out of 100. */
  lemma TotalScoreInRange(cfg: GameConfig, r: RoundResult)
    requires ScoresInRange(r, cfg.maxScorePerCategory)
    ensures 0 <= TotalScore(r) <= 3 * cfg.maxScorePerCategory
    ensures MatchesServer(cfg) ==> TotalScore(r) <= 300
  {
  }
}
