/**
 * The comparison `calculateDistance` performs: the mean of the Euclidean
 * distances between corresponding points of two faces, classified against a
 * fixed threshold.
 */
module Scoring {
  import opened Wrappers
  import opened Geometry

  /** Mean distances strictly below this classify two faces as the same person. */
  const Threshold: real := 0.13

  /** The two answers the comparison prints. */
  datatype Verdict = Same | Different

  /** What a comparison reports: the mean distance and the verdict drawn from it. */
  datatype Comparison = Comparison(meanDistance: real, verdict: Verdict)

  /**
   * Why a comparison cannot produce a verdict: no reference points (the mean is
   * 0 / 0), or fewer candidate points than reference points (an index past
   * the end of the candidate array).
   */
  datatype ScoreError = EmptyPointSet | IndexOutOfRange

  /**
   * `h` is the C library's `hypot`: its result is the non-negative square
   * root of the sum of the squares of its arguments.
   */
  ghost predicate IsHypot(h: (real, real) -> real) {
    forall dx, dy :: 0.0 <= h(dx, dy) && h(dx, dy) * h(dx, dy) == dx * dx + dy * dy
  }

  /** Non-negative reals with equal squares are equal. */
  lemma SquareRootUnique(u: real, v: real)
    requires 0.0 <= u && 0.0 <= v && u * u == v * v
    ensures u == v
  {
    assert (u - v) * (u + v) == 0.0;
    if u + v != 0.0 {
      assert u - v == (u - v) * (u + v) / (u + v);
    }
  }

  /** `hypot` is zero at the origin. */
  lemma HypotOfZero(h: (real, real) -> real)
    requires IsHypot(h)
    ensures h(0.0, 0.0) == 0.0
  {
    SquareRootUnique(h(0.0, 0.0), 0.0);
  }

  /** `hypot` is unchanged when both arguments are negated. */
  lemma HypotOfNegation(h: (real, real) -> real, dx: real, dy: real)
    requires IsHypot(h)
    ensures h(-dx, -dy) == h(dx, dy)
  {
    SquareRootUnique(h(-dx, -dy), h(dx, dy));
  }

  /** On an axis, `hypot` is the absolute value of the other argument. */
  lemma HypotOnAxis(h: (real, real) -> real, d: real)
    requires IsHypot(h)
    ensures h(0.0, d) == (if d < 0.0 then -d else d)
    ensures h(d, 0.0) == (if d < 0.0 then -d else d)
  {
    SquareRootUnique(h(0.0, d), if d < 0.0 then -d else d);
    SquareRootUnique(h(d, 0.0), if d < 0.0 then -d else d);
  }

  /** The distance between two points, as `calculateDistance` computes it. */
  function Distance(h: (real, real) -> real, p: Point, q: Point): (r: real)
    ensures IsHypot(h) ==> r >= 0.0 && r * r == (p.x - q.x) * (p.x - q.x) + (p.y - q.y) * (p.y - q.y)
  {
    h(p.x - q.x, p.y - q.y)
  }

  /**
   * The sum of the distances between the first `n` pairs of corresponding
   * points, added left to right; never negative when `h` is `hypot`.
   */
  function SumDistances(h: (real, real) -> real, a: seq<Point>, b: seq<Point>, n: nat): (r: real)
    requires n <= |a| && n <= |b|
    ensures IsHypot(h) ==> r >= 0.0
  {
    if n == 0 then 0.0 else SumDistances(h, a, b, n - 1) + Distance(h, a[n - 1], b[n - 1])
  }

  /** The verdict for a mean distance: the same person exactly when it is below the threshold. */
  function Classify(mean: real): (v: Verdict)
    ensures v == Same <==> mean < Threshold
  {
    if mean < Threshold then Same else Different
  }

  /**
   * The result of comparing reference points `a` with candidate points `b`:
   * the sum of the distances over the first |a| pairs divided by |a|,
   * classified against the threshold. Candidate points past |a| are ignored.
   */
  function Score(h: (real, real) -> real, a: seq<Point>, b: seq<Point>): (r: Result<Comparison, ScoreError>)
    ensures r == Err(EmptyPointSet) <==> |a| == 0
    ensures r == Err(IndexOutOfRange) <==> 0 < |a| && |b| < |a|
    ensures r.Ok? ==> (r.value.verdict == Same <==> r.value.meanDistance < Threshold)
  {
    if |a| == 0 then Err(EmptyPointSet)
    else if |b| < |a| then Err(IndexOutOfRange)
    else
      var mean := SumDistances(h, a, b, |a|) / (|a| as real);
      Ok(Comparison(mean, Classify(mean)))
  }

  /** The threshold is strict: a mean of exactly 0.13 means different people. */
  lemma ThresholdIsStrict(mean: real)
    ensures Classify(Threshold) == Different
    ensures mean < 0.13 ==> Classify(mean) == Same
    ensures mean >= 0.13 ==> Classify(mean) == Different
  {
  }

  /** Swapping the two point lists does not change any partial sum. */
  lemma {:induction false} SumDistancesSymmetric(h: (real, real) -> real, a: seq<Point>, b: seq<Point>, n: nat)
    requires IsHypot(h)
    requires n <= |a| && n <= |b|
    ensures SumDistances(h, a, b, n) == SumDistances(h, b, a, n)
  {
    if n > 0 {
      SumDistancesSymmetric(h, a, b, n - 1);
      var p, q := a[n - 1], b[n - 1];
      HypotOfNegation(h, p.x - q.x, p.y - q.y);
      assert -(p.x - q.x) == q.x - p.x && -(p.y - q.y) == q.y - p.y;
    }
  }

  /** A point list is at distance zero from itself. */
  lemma {:induction false} SumDistancesToSelf(h: (real, real) -> real, a: seq<Point>, n: nat)
    requires IsHypot(h)
    requires n <= |a|
    ensures SumDistances(h, a, a, n) == 0.0
  {
    if n > 0 {
      SumDistancesToSelf(h, a, n - 1);
      HypotOfZero(h);
      assert a[n - 1].x - a[n - 1].x == 0.0 && a[n - 1].y - a[n - 1].y == 0.0;
    }
  }

  /** Partial sums depend only on the first `n` points of each list. */
  lemma {:induction false} SumDistancesOfPrefixes(h: (real, real) -> real, a: seq<Point>, b: seq<Point>, b': seq<Point>, n: nat)
    requires n <= |a| && n <= |b| && n <= |b'|
    requires b[..n] == b'[..n]
    ensures SumDistances(h, a, b, n) == SumDistances(h, a, b', n)
  {
    if n > 0 {
      assert b[n - 1] == b[..n][n - 1] == b'[n - 1];
      assert b[..n - 1] == b[..n][..n - 1] && b'[..n - 1] == b'[..n][..n - 1];
      SumDistancesOfPrefixes(h, a, b, b', n - 1);
    }
  }

  /** The mean distance is never negative. */
  lemma ScoreNonNegative(h: (real, real) -> real, a: seq<Point>, b: seq<Point>)
    requires IsHypot(h)
    ensures Score(h, a, b).Ok? ==> Score(h, a, b).value.meanDistance >= 0.0
  {
  }

  /** Comparing lists of equal length gives the same result in either order. */
  lemma ScoreSymmetric(h: (real, real) -> real, a: seq<Point>, b: seq<Point>)
    requires IsHypot(h)
    requires |a| == |b|
    ensures Score(h, a, b) == Score(h, b, a)
  {
    SumDistancesSymmetric(h, a, b, |a|);
  }

  /** A non-empty point list compared with itself is at mean distance zero: the same person. */
  lemma ScoreOfSelf(h: (real, real) -> real, a: seq<Point>)
    requires IsHypot(h)
    requires |a| > 0
    ensures Score(h, a, a) == Ok(Comparison(0.0, Same))
  {
    SumDistancesToSelf(h, a, |a|);
  }

  /** Candidate points beyond the reference list's length do not affect the result. */
  lemma ScoreIgnoresExtraCandidates(h: (real, real) -> real, a: seq<Point>, b: seq<Point>)
    requires |a| <= |b|
    ensures Score(h, a, b) == Score(h, a, b[..|a|])
  {
    SumDistancesOfPrefixes(h, a, b, b[..|a|], |a|);
  }

  /** One reference point at (100, 100) and one candidate at (100, 100.5): mean 0.5, different people. */
  lemma ScoreExample(h: (real, real) -> real)
    requires IsHypot(h)
    ensures Score(h, [Point(100.0, 100.0)], [Point(100.0, 100.5)]) == Ok(Comparison(0.5, Different))
  {
    HypotOnAxis(h, -0.5);
    assert SumDistances(h, [Point(100.0, 100.0)], [Point(100.0, 100.5)], 1) == 0.5;
  }
}
