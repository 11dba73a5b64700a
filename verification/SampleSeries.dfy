/**
 The centered online least-squares fit: scripts/endurance-metrics.ts, `SampleSeries`, lines 78-113, held to
 the two-pass fit of scripts/relay-soak.ts, `summarizeGatewaySamples`, lines 136-158, before its scaling
 and rounding. Arithmetic is exact; a sample is a finite number or not.
 */
module SampleSeries {
  import opened Wrappers

  datatype Sample = Sample(x: real, y: real)

  datatype Fit = Fit(count: nat, start: real, end: real, min: real, max: real, mean: real, slope: real)

  /** Products and shares have names of their own so that sums of them stay linear to reason about. */
  function Times(a: real, b: real): real { a * b }

  function Share(d: real, n: nat): real
    requires n > 0
  {
    d / n as real
  }

  function Last(s: seq<Sample>): Sample
    requires s != []
  {
    s[|s| - 1]
  }

  function SumX(s: seq<Sample>): real { if s == [] then 0.0 else SumX(s[..|s| - 1]) + Last(s).x }

  function SumY(s: seq<Sample>): real { if s == [] then 0.0 else SumY(s[..|s| - 1]) + Last(s).y }

  /** Sum of squared distances of the times from c. */
  function Squares(s: seq<Sample>, c: real): real {
    if s == [] then 0.0 else Squares(s[..|s| - 1], c) + Times(Last(s).x - c, Last(s).x - c)
  }

  /** Sum of products of the distances of the times from a and of the values from b. */
  function Products(s: seq<Sample>, a: real, b: real): real {
    if s == [] then 0.0 else Products(s[..|s| - 1], a, b) + Times(Last(s).x - a, Last(s).y - b)
  }

  function MeanX(s: seq<Sample>): real { if s == [] then 0.0 else Share(SumX(s), |s|) }

  function MeanY(s: seq<Sample>): real { if s == [] then 0.0 else Share(SumY(s), |s|) }

  /** The two-pass slope: the means first, then the sums about them. */
  function BatchSlope(s: seq<Sample>): real {
    var variance := Squares(s, MeanX(s));
    if variance == 0.0 then 0.0 else Products(s, MeanX(s), MeanY(s)) / variance
  }

  // Sums about zero, in which every other sum expands.

  function SumXX(s: seq<Sample>): real { if s == [] then 0.0 else SumXX(s[..|s| - 1]) + Times(Last(s).x, Last(s).x) }

  function SumXY(s: seq<Sample>): real { if s == [] then 0.0 else SumXY(s[..|s| - 1]) + Times(Last(s).x, Last(s).y) }

  function SumYY(s: seq<Sample>): real { if s == [] then 0.0 else SumYY(s[..|s| - 1]) + Times(Last(s).y, Last(s).y) }

  lemma Distribute(t: real, a: real, b: real, c: real)
    requires c == a + b
    ensures Times(t, c) == Times(t, a) + Times(t, b)
  {
  }

  lemma ProductExpand(x: real, y: real, a: real, b: real)
    ensures Times(x - a, y - b) == Times(x, y) - Times(a, y) - Times(b, x) + Times(1.0, Times(a, b))
  {
  }

  /** The sum of products about any centre, from the sums about zero. */
  lemma {:induction false} ProductsExpand(s: seq<Sample>, a: real, b: real)
    ensures Products(s, a, b) == SumXY(s) - Times(a, SumY(s)) - Times(b, SumX(s)) + Times(|s| as real, Times(a, b))
  {
    if s == [] {
      Zero(a, b);
    } else {
      var front, p := s[..|s| - 1], Last(s);
      ProductsExpand(front, a, b);
      ProductExpand(p.x, p.y, a, b);
      Distribute(a, SumY(front), p.y, SumY(s));
      Distribute(b, SumX(front), p.x, SumX(s));
      OneMore(|front|, Times(a, b));
      hide Times;
    }
  }

  lemma {:induction false} SquaresExpand(s: seq<Sample>, c: real)
    ensures Squares(s, c) == SumXX(s) - 2.0 * Times(c, SumX(s)) + Times(|s| as real, Times(c, c))
  {
    if s == [] {
      Zero(c, c);
    } else {
      var front, x := s[..|s| - 1], Last(s).x;
      SquaresExpand(front, c);
      ProductExpand(x, x, c, c);
      Distribute(c, SumX(front), x, SumX(s));
      OneMore(|front|, Times(c, c));
      hide Times;
    }
  }

  lemma Zero(a: real, b: real)
    ensures Times(a, 0.0) == Times(b, 0.0) == Times(0.0, Times(a, b)) == 0.0
  {
  }

  lemma OneMore(n: nat, t: real)
    ensures Times((n + 1) as real, t) == Times(n as real, t) + Times(1.0, t)
  {
  }

  lemma SumsOfOneMore(s: seq<Sample>, p: Sample)
    ensures SumX(s + [p]) == SumX(s) + p.x && SumY(s + [p]) == SumY(s) + p.y
    ensures SumXX(s + [p]) == SumXX(s) + Times(p.x, p.x) && SumXY(s + [p]) == SumXY(s) + Times(p.x, p.y)
  {
    hide Times;
    assert (s + [p])[..|s|] == s;
  }

  lemma ShareTimes(d: real, n: nat)
    requires n > 0
    ensures d == Times(n as real, Share(d, n))
  {
  }

  lemma MeansCentre(s: seq<Sample>)
    ensures SumX(s) == Times(|s| as real, MeanX(s)) && SumY(s) == Times(|s| as real, MeanY(s))
  {
    if s == [] {
      Zero(0.0, 0.0);
    } else {
      ShareTimes(SumX(s), |s|);
      ShareTimes(SumY(s), |s|);
    }
    hide Times, Share;
  }

  /** One more number moves the mean by its share of the distance. */
  lemma MeanStep(n: nat, sum: real, mean: real, x: real)
    requires sum == Times(n as real, mean)
    ensures Share(sum + x, n + 1) == mean + Share(x - mean, n + 1)
    ensures x == mean + Times(n as real + 1.0, Share(x - mean, n + 1))
  {
    var d := Share(x - mean, n + 1);
    assert (n + 1) as real * d == x - mean;
    assert sum + x == (n + 1) as real * (mean + d);
  }

  lemma MeansStep(s: seq<Sample>, p: Sample)
    ensures MeanX(s + [p]) == MeanX(s) + Share(p.x - MeanX(s), |s| + 1)
    ensures MeanY(s + [p]) == MeanY(s) + Share(p.y - MeanY(s), |s| + 1)
    ensures p.x == MeanX(s) + Times(|s| as real + 1.0, Share(p.x - MeanX(s), |s| + 1))
    ensures p.y == MeanY(s) + Times(|s| as real + 1.0, Share(p.y - MeanY(s), |s| + 1))
  {
    MeansCentre(s);
    SumsOfOneMore(s, p);
    MeanStep(|s|, SumX(s), MeanX(s), p.x);
    MeanStep(|s|, SumY(s), MeanY(s), p.y);
    hide Times, Share, SumX, SumY;
  }

  lemma StepAlgebra(n: real, m: real, k: real, d: real, e: real)
    ensures var x, y := m + (n + 1.0) * d, k + (n + 1.0) * e;
      x * y - (m + d) * (n * k + y) - (k + e) * (n * m + x) + (n + 1.0) * ((m + d) * (k + e))
        == 0.0 - m * (n * k) - k * (n * m) + n * (m * k) + (x - m) * (y - (k + e))
  {
  }

  /** n samples with sums sx and sy about means (m, k), and one more, (x, y), that moves them by d and e. */
  lemma StepFromSums(n: real, m: real, k: real, d: real, e: real, x: real, y: real, sx: real, sy: real)
    requires x == m + Times(n + 1.0, d) && y == k + Times(n + 1.0, e) && sx == Times(n, m) && sy == Times(n, k)
    ensures Times(x, y) - Times(m + d, sy + y) - Times(k + e, sx + x) + Times(n + 1.0, Times(m + d, k + e))
         == 0.0 - Times(m, sy) - Times(k, sx) + Times(n, Times(m, k)) + Times(x - m, y - (k + e))
  {
    StepAlgebra(n, m, k, d, e);
  }

  /** The centered update gives the sum of products about the new means. */
  lemma ProductsStep(s: seq<Sample>, p: Sample)
    ensures Products(s + [p], MeanX(s + [p]), MeanY(s + [p])) ==
      Products(s, MeanX(s), MeanY(s)) + Times(p.x - MeanX(s), p.y - MeanY(s + [p]))
  {
    hide *;
    var m, k, n := MeanX(s), MeanY(s), |s|;
    var d, e := Share(p.x - m, n + 1), Share(p.y - k, n + 1);
    MeansStep(s, p);
    MeansCentre(s);
    SumsOfOneMore(s, p);
    StepFromSums(n as real, m, k, d, e, p.x, p.y, SumX(s), SumY(s));
    ProductsExpand(s, m, k);
    ProductsExpand(s + [p], m + d, k + e);
    assert |s + [p]| as real == n as real + 1.0;
  }

  /** And of squares. */
  lemma SquaresStep(s: seq<Sample>, p: Sample)
    ensures Squares(s + [p], MeanX(s + [p])) == Squares(s, MeanX(s)) + Times(p.x - MeanX(s), p.x - MeanX(s + [p]))
  {
    hide *;
    var m, n := MeanX(s), |s|;
    var d := Share(p.x - m, n + 1);
    MeansStep(s, p);
    MeansCentre(s);
    SumsOfOneMore(s, p);
    StepFromSums(n as real, m, m, d, d, p.x, p.x, SumX(s), SumX(s));
    SquaresExpand(s, m);
    SquaresExpand(s + [p], m + d);
    assert |s + [p]| as real == n as real + 1.0;
  }

  predicate Increasing(s: seq<Sample>) {
    && (forall i :: 0 <= i < |s| ==> s[i].x >= 0.0)
    && (forall i, j :: 0 <= i < j < |s| ==> s[i].x < s[j].x)
  }

  lemma IncreasingStep(s: seq<Sample>, p: Sample)
    requires Increasing(s) && p.x >= 0.0 && (s != [] ==> p.x > Last(s).x)
    ensures Increasing(s + [p])
  {
  }

  lemma Square(t: real)
    ensures Times(t, t) >= 0.0
  {
  }

  lemma NonZeroSquare(t: real)
    requires t != 0.0
    ensures Times(t, t) > 0.0
  {
    var u := if t > 0.0 then t else 0.0 - t;
    PositiveProduct(u, u);
    SameSquare(t, u);
  }

  lemma PositiveProduct(a: real, b: real)
    requires a > 0.0 && b > 0.0
    ensures Times(a, b) > 0.0
  {
  }

  lemma SameSquare(t: real, u: real)
    requires u == t || u == 0.0 - t
    ensures Times(u, u) == Times(t, t)
  {
  }

  /** A sum of squares is at least any one of them, and so not negative. */
  lemma {:induction false} SquaresAtLeast(s: seq<Sample>, c: real, i: nat)
    ensures Squares(s, c) >= 0.0
    ensures i < |s| ==> Squares(s, c) >= Times(s[i].x - c, s[i].x - c)
  {
    if s != [] {
      SquaresAtLeast(s[..|s| - 1], c, i);
      Square(Last(s).x - c);
      hide Times;
    }
  }

  /** Two samples at different times are enough for a positive variance. */
  lemma VariancePositive(s: seq<Sample>, c: real)
    requires |s| >= 2 && Increasing(s)
    ensures Squares(s, c) > 0.0
  {
    hide Times, Squares;
    var i := if s[0].x != c then 0 else 1;
    SquaresAtLeast(s, c, i);
    NonZeroSquare(s[i].x - c);
  }

  /** What the means and centered sums stand for. */
  ghost predicate Fitted(s: seq<Sample>, meanX: real, meanY: real, xx: real, xy: real) {
    meanX == MeanX(s) && meanY == MeanY(s) && xx == Squares(s, meanX) && xy == Products(s, meanX, meanY)
  }

  /** The update of one sample, as the class does it. */
  lemma FittedStep(s: seq<Sample>, p: Sample, meanX: real, meanY: real, xx: real, xy: real)
    requires Fitted(s, meanX, meanY, xx, xy)
    ensures var meanX', meanY' := meanX + Share(p.x - meanX, |s| + 1), meanY + Share(p.y - meanY, |s| + 1);
      Fitted(s + [p], meanX', meanY', xx + Times(p.x - meanX, p.x - meanX'), xy + Times(p.x - meanX, p.y - meanY'))
  {
    hide MeanX, MeanY, Squares, Products, Times, Share;
    SquaresStep(s, p);
    ProductsStep(s, p);
    MeansStep(s, p);
  }

  /** The bounds are values that occur, and bound every value. */
  ghost predicate Bounds(s: seq<Sample>, min: Option<real>, max: Option<real>) {
    && (s == [] ==> min.None? && max.None?)
    && (s != [] ==> min.Some? && max.Some? && IsValue(s, min.value) && IsValue(s, max.value))
    && (forall p :: p in s ==> min.value <= p.y <= max.value)
  }

  ghost predicate IsValue(s: seq<Sample>, y: real) { exists p :: p in s && p.y == y }

  lemma BoundsStep(s: seq<Sample>, p: Sample, min: Option<real>, max: Option<real>)
    requires Bounds(s, min, max)
    ensures Bounds(s + [p], Some(if min.Some? && min.value <= p.y then min.value else p.y),
                   Some(if max.Some? && max.value >= p.y then max.value else p.y))
  {
    assert p in s + [p];
    if s != [] {
      var q, r :| q in s && q.y == min.value && r in s && r.y == max.value;
      assert q in s + [p] && r in s + [p];
    }
  }

  /** The first and last values, and the last time. */
  ghost predicate Ends(s: seq<Sample>, start: real, end: real, lastTime: Option<real>) {
    if s == [] then start == end == 0.0 && lastTime.None?
    else start == s[0].y && end == Last(s).y && lastTime == Some(Last(s).x)
  }

  lemma EndsStep(s: seq<Sample>, p: Sample, start: real, end: real, lastTime: Option<real>)
    requires Ends(s, start, end, lastTime)
    ensures Ends(s + [p], if s == [] then p.y else start, p.y, Some(p.x))
    ensures s != [] <==> lastTime.Some?
    ensures s != [] ==> lastTime == Some(Last(s).x)
  {
  }

  class Series {
    var count: nat
    var start: real
    var end: real
    var min: Option<real>
    var max: Option<real>
    var meanX: real
    var meanY: real
    var xx: real
    var xy: real
    var lastTime: Option<real>
    ghost var samples: seq<Sample>

    ghost predicate Valid()
      reads this
    {
      && count == |samples| && Increasing(samples)
      && Fitted(samples, meanX, meanY, xx, xy) && Bounds(samples, min, max)
      && Ends(samples, start, end, lastTime)
    }

    constructor ()
      ensures Valid() && samples == []
    {
      count, start, end, meanX, meanY, xx, xy := 0, 0.0, 0.0, 0.0, 0.0, 0.0, 0.0;
      min, max, lastTime, samples := None, None, None, [];
    }

    /** A time that is negative or not after the last one is refused, as is anything that is no finite number. */
    method Observe(elapsedSeconds: Option<real>, value: Option<real>) returns (ok: bool)
      requires Valid()
      modifies this
      ensures ok <==> elapsedSeconds.Some? && value.Some? && elapsedSeconds.value >= 0.0
                      && (old(lastTime).Some? ==> elapsedSeconds.value > old(lastTime).value)
      ensures Valid()
      ensures samples == if ok then old(samples) + [Sample(elapsedSeconds.value, value.value)] else old(samples)
    {
      hide Fitted, Bounds, Increasing, Ends, Last, Times, Share;
      if elapsedSeconds.None? || value.None? || elapsedSeconds.value < 0.0
         || (lastTime.Some? && elapsedSeconds.value <= lastTime.value) {
        return false;
      }
      var x, y := elapsedSeconds.value, value.value;
      ghost var p := Sample(x, y);
      FittedStep(samples, p, meanX, meanY, xx, xy);
      BoundsStep(samples, p, min, max);
      EndsStep(samples, p, start, end, lastTime);
      IncreasingStep(samples, p);
      lastTime := Some(x);
      if count == 0 { start := y; }
      count := count + 1;
      var dx, dy := x - meanX, y - meanY;
      meanX := meanX + Share(dx, count);
      meanY := meanY + Share(dy, count);
      xx := xx + Times(dx, x - meanX);
      xy := xy + Times(dx, y - meanY);
      end := y;
      min := Some(if min.Some? && min.value <= y then min.value else y);
      max := Some(if max.Some? && max.value >= y then max.value else y);
      samples := samples + [p];
      return true;
    }

    /** The reported mean and slope are the two-pass ones. */
    method Summarize() returns (fit: Fit)
      requires Valid()
      ensures fit.count == |samples| && fit.mean == MeanY(samples) && fit.slope == BatchSlope(samples)
      ensures Ends(samples, fit.start, fit.end, lastTime)
      ensures samples != [] ==> Bounds(samples, Some(fit.min), Some(fit.max))
      ensures samples == [] ==> fit.min == fit.max == 0.0
    {
      fit := Fit(count, start, end, if count > 0 then min.value else 0.0, if count > 0 then max.value else 0.0,
                 meanY, if xx == 0.0 then 0.0 else xy / xx);
    }
  }

  /** The two-pass fit over a kept sample list. */
  method BatchFit(samples: seq<Sample>) returns (slope: real)
    requires samples != []
    ensures slope == BatchSlope(samples)
  {
    hide Times, Share;
    var sumX, sumY := 0.0, 0.0;
    for i := 0 to |samples|
      invariant sumX == SumX(samples[..i]) && sumY == SumY(samples[..i])
    {
      assert samples[..i + 1][..i] == samples[..i];
      sumX, sumY := sumX + samples[i].x, sumY + samples[i].y;
    }
    assert samples[..|samples|] == samples;
    var meanX, meanY := Share(sumX, |samples|), Share(sumY, |samples|);
    var covariance, variance := 0.0, 0.0;
    for i := 0 to |samples|
      invariant covariance == Products(samples[..i], meanX, meanY) && variance == Squares(samples[..i], meanX)
    {
      assert samples[..i + 1][..i] == samples[..i];
      covariance := covariance + Times(samples[i].x - meanX, samples[i].y - meanY);
      variance := variance + Times(samples[i].x - meanX, samples[i].x - meanX);
    }
    slope := if variance == 0.0 then 0.0 else covariance / variance;
  }

  function Residual(p: Sample, slope: real, intercept: real): real { p.y - intercept - Times(slope, p.x) }

  /** Sum of squared residuals of the line y = intercept + slope * x. */
  function Residuals(s: seq<Sample>, slope: real, intercept: real): real {
    if s == [] then 0.0
    else
      var r := Residual(Last(s), slope, intercept);
      Residuals(s[..|s| - 1], slope, intercept) + Times(r, r)
  }

  /** The squared residuals of one line, from the sums about zero. */
  function FromSums(n: real, sx: real, sy: real, sxx: real, sxy: real, b: real, a: real): real {
    Times(Times(b, b), sxx) + Times(Times(a, a), n) - 2.0 * Times(a, sy) - 2.0 * Times(b, sxy) + 2.0 * Times(Times(a, b), sx)
  }

  lemma ResidualExpand(p: Sample, b: real, a: real)
    ensures Times(Residual(p, b, a), Residual(p, b, a))
         == Times(p.y, p.y) + FromSums(1.0, p.x, p.y, Times(p.x, p.x), Times(p.x, p.y), b, a)
  {
    ResidualAlgebra(p.x, p.y, b, a);
  }

  lemma ResidualAlgebra(x: real, y: real, b: real, a: real)
    ensures (y - a - b * x) * (y - a - b * x)
         == y * y + (b * b) * (x * x) + (a * a) * 1.0 - 2.0 * (a * y) - 2.0 * (b * (x * y)) + 2.0 * ((a * b) * x)
  {
  }

  lemma FromSumsAdds(n: real, sx: real, sy: real, sxx: real, sxy: real, x: real, y: real, xx: real, xy: real, b: real, a: real)
    ensures FromSums(n + 1.0, sx + x, sy + y, sxx + xx, sxy + xy, b, a)
         == FromSums(n, sx, sy, sxx, sxy, b, a) + FromSums(1.0, x, y, xx, xy, b, a)
  {
    Distribute(Times(b, b), sxx, xx, sxx + xx);
    Distribute(Times(a, a), n, 1.0, n + 1.0);
    Distribute(a, sy, y, sy + y);
    Distribute(b, sxy, xy, sxy + xy);
    Distribute(Times(a, b), sx, x, sx + x);
    hide Times;
  }

  lemma {:induction false} ResidualsExpand(s: seq<Sample>, b: real, a: real)
    ensures Residuals(s, b, a) == SumYY(s) + FromSums(|s| as real, SumX(s), SumY(s), SumXX(s), SumXY(s), b, a)
  {
    if s != [] {
      var front, p := s[..|s| - 1], Last(s);
      ResidualsExpand(front, b, a);
      ResidualExpand(p, b, a);
      FromSumsAdds(|front| as real, SumX(front), SumY(front), SumXX(front), SumXY(front),
                   p.x, p.y, Times(p.x, p.x), Times(p.x, p.y), b, a);
      hide Times, Residual, FromSums;
      assert |front| as real + 1.0 == |s| as real;
    }
  }

  lemma MeansPart(n: real, p: real, q: real, b: real, a: real)
    ensures FromSums(n, Times(n, p), Times(n, q), Times(n, Times(p, p)), Times(n, Times(p, q)), b, a)
         == Times(n, Times(q - a - Times(b, p), q - a - Times(b, p))) - Times(n, Times(q, q))
  {
    ResidualAlgebra(p, q, b, a);
  }

  lemma SpreadPart(v: real, k: real, b: real)
    ensures Times(Times(b, b), v) - 2.0 * Times(b, Times(k, v)) == Times(v, Times(b - k, b - k)) - Times(v, Times(k, k))
  {
  }

  /**
   Completing the square: n samples with means (p, q), spread v, and slope k of the fit through the means. The
   squared residuals exceed a constant by n times one square and the spread times another.
   */
  lemma CompleteSquare(n: real, p: real, q: real, v: real, k: real, b: real, a: real)
    ensures FromSums(n, Times(n, p), Times(n, q), v + Times(n, Times(p, p)), Times(k, v) + Times(n, Times(p, q)), b, a)
      == Times(n, Times(q - a - Times(b, p), q - a - Times(b, p))) + Times(v, Times(b - k, b - k))
         - Times(n, Times(q, q)) - Times(v, Times(k, k))
  {
    hide Times;
    MeansPart(n, p, q, b, a);
    SpreadPart(v, k, b);
    Distribute(Times(b, b), v, Times(n, Times(p, p)), v + Times(n, Times(p, p)));
    Distribute(b, Times(k, v), Times(n, Times(p, q)), Times(k, v) + Times(n, Times(p, q)));
  }

  lemma SquareTimes(w: real, t: real)
    requires w >= 0.0
    ensures Times(w, Times(t, t)) >= 0.0
    ensures t == 0.0 ==> Times(w, Times(t, t)) == 0.0
  {
    Square(t);
    assert Times(w, Times(t, t)) == w * (t * t);
  }

  /** The sums about zero, from the spread about the means. */
  lemma AboutMeans(s: seq<Sample>)
    ensures SumXX(s) == Squares(s, MeanX(s)) + Times(|s| as real, Times(MeanX(s), MeanX(s)))
    ensures SumXY(s) == Products(s, MeanX(s), MeanY(s)) + Times(|s| as real, Times(MeanX(s), MeanY(s)))
  {
    hide *;
    var p, q, n := MeanX(s), MeanY(s), |s| as real;
    MeansCentre(s);
    SquaresExpand(s, p);
    ProductsExpand(s, p, q);
    Regroup(n, p, p);
    Regroup(n, p, q);
  }

  lemma Regroup(n: real, p: real, q: real)
    ensures Times(p, Times(n, q)) == Times(n, Times(p, q)) && Times(q, Times(n, p)) == Times(n, Times(p, q))
  {
  }

  lemma Quotient(a: real, v: real)
    requires v != 0.0
    ensures Times(a / v, v) == a
  {
  }

  /** The fitted line through the means has the least squared residuals of all lines. */
  lemma FitIsOptimal(s: seq<Sample>, slope: real, intercept: real)
    requires |s| >= 2 && Increasing(s)
    ensures var best := BatchSlope(s);
      Residuals(s, best, MeanY(s) - Times(best, MeanX(s))) <= Residuals(s, slope, intercept)
  {
    hide Times, Share, Squares, Products, SumX, SumY, SumXX, SumXY, SumYY, MeanX, MeanY, Residuals, FromSums;
    var p, q, n, v := MeanX(s), MeanY(s), |s| as real, Squares(s, MeanX(s));
    VariancePositive(s, p);
    Quotient(Products(s, p, q), v);
    var best := BatchSlope(s);
    var a := q - Times(best, p);
    MeansCentre(s);
    AboutMeans(s);
    ResidualsExpand(s, slope, intercept);
    ResidualsExpand(s, best, a);
    CompleteSquare(n, p, q, v, best, slope, intercept);
    CompleteSquare(n, p, q, v, best, best, a);
    SquareTimes(n, q - intercept - Times(slope, p));
    SquareTimes(v, slope - best);
    SquareTimes(n, q - a - Times(best, p));
    SquareTimes(v, best - best);
  }
}
