/**
 * Per-(unit, parameter) time series with least-squares trend, z-score
 * anomaly test and threshold-crossing prediction.
 *
 * std::sqrt is the parameter `root` of the members that take a standard
 * deviation; nothing is assumed about it except where a lemma says so.
 */
module Trends {
  import opened Wrappers
  import opened Bounded
  import opened KeyOrder

  datatype DataPoint = DataPoint(value: real, timestampMs: int)

  type Series = seq<DataPoint>

  datatype Direction = Stable | Increasing | Decreasing | Volatile

  datatype TrendResult = TrendResult(direction: Direction, slope: real, rSquared: real,
                                     currentValue: real, predictedValue: real, anomalyScore: real)

  /** A default-constructed TrendResult. */
  const NO_TREND: TrendResult := TrendResult(Stable, 0.0, 0.0, 0.0, 0.0, 0.0)

  const DEFAULT_WINDOW_SIZE: int := 100
  const DEFAULT_ANOMALY_THRESHOLD: real := 3.0
  const DEFAULT_TREND_THRESHOLD: real := 0.001
  const MAX_DATA_POINTS: nat := 10000

  /** 1e-10, the cut-off below which a slope, a denominator or a deviation counts as zero. */
  const EPSILON: real := 0.0000000001

  datatype TrendSignal = AnomalyDetected(subsystemId: string, parameter: string, value: real, expected: real)

  function Abs(x: real): real { if x < 0.0 then -x else x }

  /** qBound(0.0, x, 1.0). */
  function Clamp01(x: real): (r: real)
    ensures 0.0 <= r <= 1.0
    ensures 0.0 <= x <= 1.0 ==> r == x
  {
    if x < 0.0 then 0.0 else if x > 1.0 then 1.0 else x
  }

  /** static_cast<qint64> of a double: truncation toward zero. */
  function Truncate(x: real): int {
    if x >= 0.0 then x.Floor else -((-x).Floor)
  }

  /**
   * The last `count` points, the way the window and getDataPoints take them:
   * a negative count, cast to size_t, exceeds every size and keeps them all.
   */
  function LastPoints(s: Series, count: int): Series {
    if count >= 0 && |s| > count then s[|s| - count..] else s
  }

  lemma LastPointsSpec(s: Series, count: int)
    ensures LastPoints(s, count) == s[|s| - |LastPoints(s, count)|..]
    ensures |LastPoints(s, count)| == if count >= 0 then Min(|s|, count) else |s|
  {
  }

  // ---------------------------------------------------------------- statistics

  function SumValues(s: Series): real
    decreases |s|
  {
    if |s| == 0 then 0.0 else SumValues(s[..|s| - 1]) + s[|s| - 1].value
  }

  /** computeMean: 0 for an empty series. */
  function Mean(s: Series): real {
    if |s| == 0 then 0.0 else SumValues(s) / (|s| as real)
  }

  function Square(x: real): (r: real)
    ensures r >= 0.0
  {
    x * x
  }

  function SumSquaredDiffs(s: Series, mean: real): real
    decreases |s|
  {
    if |s| == 0 then 0.0
    else SumSquaredDiffs(s[..|s| - 1], mean) + Square(s[|s| - 1].value - mean)
  }

  /** computeStdDev: the sample deviation, 0 below two points. */
  function StdDev(s: Series, mean: real, root: real -> real): real {
    if |s| < 2 then 0.0 else root(SumSquaredDiffs(s, mean) / ((|s| - 1) as real))
  }

  /** computeZScore: 0 when the deviation is below EPSILON. */
  function ZScore(value: real, mean: real, stdDev: real): real {
    if stdDev < EPSILON then 0.0 else (value - mean) / stdDev
  }

  lemma {:induction false} SumSquaredDiffsNonNegative(s: Series, mean: real)
    ensures SumSquaredDiffs(s, mean) >= 0.0
    decreases |s|
  {
    if |s| > 0 {
      SumSquaredDiffsNonNegative(s[..|s| - 1], mean);
    }
  }

  /** A series whose every value is c. */
  ghost predicate Constant(s: Series, c: real) {
    forall i :: 0 <= i < |s| ==> s[i].value == c
  }

  lemma {:induction false} ConstantSums(s: Series, c: real)
    requires Constant(s, c)
    ensures SumValues(s) == (|s| as real) * c
    ensures SumSquaredDiffs(s, c) == 0.0
    decreases |s|
  {
    if |s| > 0 {
      ConstantSums(s[..|s| - 1], c);
    }
  }

  /** The mean lies between the smallest and largest value, and a constant series has mean c and no spread. */
  lemma {:induction false} MeanBounds(s: Series, lo: real, hi: real)
    requires |s| > 0 && forall i :: 0 <= i < |s| ==> lo <= s[i].value <= hi
    ensures lo <= Mean(s) <= hi
  {
    SumBounds(s, lo, hi);
    var n := |s| as real;
    assert SumValues(s) / n * n == SumValues(s);
  }

  lemma {:induction false} SumBounds(s: Series, lo: real, hi: real)
    requires forall i :: 0 <= i < |s| ==> lo <= s[i].value <= hi
    ensures (|s| as real) * lo <= SumValues(s) <= (|s| as real) * hi
    decreases |s|
  {
    if |s| > 0 {
      SumBounds(s[..|s| - 1], lo, hi);
    }
  }

  lemma ConstantMean(s: Series, c: real)
    requires |s| > 0 && Constant(s, c)
    ensures Mean(s) == c
    ensures SumSquaredDiffs(s, Mean(s)) == 0.0
  {
    ConstantSums(s, c);
  }

  // ---------------------------------------------------------------- regression

  /** The running sums of computeLinearRegression's first pass (sumY2 is accumulated there but never read). */
  datatype Sums = Sums(x: real, y: real, xy: real, x2: real)

  function SumsOf(s: Series): Sums
    decreases |s|
  {
    if |s| == 0 then Sums(0.0, 0.0, 0.0, 0.0) else AddPoint(SumsOf(s[..|s| - 1]), s[|s| - 1])
  }

  /** One iteration of the first pass. */
  function AddPoint(t: Sums, p: DataPoint): Sums {
    var x, y := p.timestampMs as real, p.value;
    Sums(t.x + x, t.y + y, t.xy + x * y, t.x2 + x * x)
  }

  /** The second pass: residual and total sums of squares. */
  datatype Squares = Squares(res: real, tot: real)

  function SquaresOf(s: Series, slope: real, intercept: real, meanY: real): Squares
    decreases |s|
  {
    if |s| == 0 then Squares(0.0, 0.0)
    else
      var t := SquaresOf(s[..|s| - 1], slope, intercept, meanY);
      var p := s[|s| - 1];
      Squares(t.res + Square(p.value - LineAt(slope, intercept, p.timestampMs as real)), t.tot + Square(p.value - meanY))
  }

  datatype Fit = Fit(slope: real, intercept: real, rSquared: real)

  /** The fitted line at time t. */
  function LineAt(slope: real, intercept: real, t: real): real { slope * t + intercept }

  /** n * sumX2 - sumX * sumX. */
  function Denominator(n: real, t: Sums): real { n * t.x2 - t.x * t.x }

  /** (n * sumXY - sumX * sumY) / denom. */
  function SlopeOf(n: real, t: Sums, denom: real): real
    requires denom != 0.0
  {
    (n * t.xy - t.x * t.y) / denom
  }

  /** (sumY - slope * sumX) / n. */
  function InterceptOf(n: real, t: Sums, slope: real): real
    requires n != 0.0
  {
    (t.y - slope * t.x) / n
  }

  /** 1 - ssRes / ssTot when ssTot > 0, else 0. */
  function RSquaredOf(q: Squares): real {
    if q.tot > 0.0 then 1.0 - q.res / q.tot else 0.0
  }

  /** computeLinearRegression. */
  function Regression(s: Series): Fit {
    if |s| < 2 then Fit(0.0, 0.0, 0.0)
    else
      var n := |s| as real;
      var t := SumsOf(s);
      var denom := Denominator(n, t);
      if Abs(denom) < EPSILON then Fit(0.0, t.y / n, 0.0)
      else
        var slope := SlopeOf(n, t, denom);
        var intercept := InterceptOf(n, t, slope);
        Fit(slope, intercept, RSquaredOf(SquaresOf(s, slope, intercept, t.y / n)))
  }

  lemma {:induction false} SumsOfY(s: Series)
    ensures SumsOf(s).y == SumValues(s)
    decreases |s|
  {
    if |s| > 0 {
      SumsOfY(s[..|s| - 1]);
    }
  }

  lemma {:induction false} SquaresNonNegative(s: Series, slope: real, intercept: real, meanY: real)
    ensures SquaresOf(s, slope, intercept, meanY).res >= 0.0
    ensures SquaresOf(s, slope, intercept, meanY).tot >= 0.0
    decreases |s|
  {
    if |s| > 0 {
      SquaresNonNegative(s[..|s| - 1], slope, intercept, meanY);
    }
  }

  /**
   * Below two points everything is zero; a near-zero denominator gives a flat
   * line through the mean; R squared never exceeds 1 and is 0 when the values
   * do not vary about their mean.
   */
  lemma RegressionSpec(s: Series)
    ensures |s| < 2 ==> Regression(s) == Fit(0.0, 0.0, 0.0)
    ensures |s| >= 2 && Abs(Denominator(|s| as real, SumsOf(s))) < EPSILON ==> Regression(s) == Fit(0.0, Mean(s), 0.0)
    ensures Regression(s).rSquared <= 1.0
    ensures SumSquaredDiffs(s, Mean(s)) == 0.0 ==> Regression(s).rSquared == 0.0
  {
    SumsOfY(s);
    if |s| >= 2 {
      var n := |s| as real;
      var t := SumsOf(s);
      var denom := Denominator(n, t);
      if Abs(denom) >= EPSILON {
        var slope := SlopeOf(n, t, denom);
        var intercept := InterceptOf(n, t, slope);
        var q := SquaresOf(s, slope, intercept, t.y / n);
        SquaresNonNegative(s, slope, intercept, t.y / n);
        SquaresTotal(s, slope, intercept, t.y / n);
        if q.tot > 0.0 {
          assert q.res / q.tot >= 0.0;
        }
      }
    }
  }

  /** The second pass's total sum of squares is the spread about the mean it is given. */
  lemma {:induction false} SquaresTotal(s: Series, slope: real, intercept: real, meanY: real)
    ensures SquaresOf(s, slope, intercept, meanY).tot == SumSquaredDiffs(s, meanY)
    decreases |s|
  {
    if |s| > 0 {
      SquaresTotal(s[..|s| - 1], slope, intercept, meanY);
    }
  }

  /** A constant series explains nothing: its R squared is 0. */
  lemma ConstantRSquared(s: Series, c: real)
    requires Constant(s, c)
    ensures Regression(s).rSquared == 0.0
  {
    RegressionSpec(s);
    if |s| > 0 {
      ConstantMean(s, c);
    }
  }

  /** A series lying on the line a·t + b. */
  ghost predicate Linear(s: Series, a: real, b: real) {
    forall i :: 0 <= i < |s| ==> s[i].value == LineAt(a, b, s[i].timestampMs as real)
  }

  lemma LinearPrefix(s: Series, a: real, b: real)
    requires |s| > 0 && Linear(s, a, b)
    ensures Linear(s[..|s| - 1], a, b)
  {
    var init := s[..|s| - 1];
    forall i | 0 <= i < |init| ensures init[i].value == LineAt(a, b, init[i].timestampMs as real) {
      assert init[i] == s[i];
    }
  }

  /** The sums of points lying on the line a·t + b, n of them. */
  predicate OnLine(t: Sums, n: real, a: real, b: real) {
    t.y == a * t.x + n * b && t.xy == a * t.x2 + b * t.x
  }

  /** The sums of a series on the line stay on it, point by point. */
  lemma {:induction false} LinearSums(s: Series, a: real, b: real)
    requires Linear(s, a, b)
    ensures OnLine(SumsOf(s), |s| as real, a, b)
    decreases |s|
  {
    if |s| > 0 {
      var init := s[..|s| - 1];
      LinearPrefix(s, a, b);
      LinearSums(init, a, b);
      var p := s[|s| - 1];
      assert p.value == LineAt(a, b, p.timestampMs as real);
      LinearStep(SumsOf(init), p, |init| as real, a, b);
      assert (|init| as real) + 1.0 == |s| as real;
    }
  }

  /** One more point on the line keeps the sums on it. */
  lemma LinearStep(t: Sums, p: DataPoint, n: real, a: real, b: real)
    requires OnLine(t, n, a, b) && p.value == LineAt(a, b, p.timestampMs as real)
    ensures OnLine(AddPoint(t, p), n + 1.0, a, b)
  {
    var x := p.timestampMs as real;
    assert x * p.value == a * (x * x) + b * x;
  }

  /** The regression formulas on sums on the line a·t + b give back a and b. */
  lemma LinearAlgebra(t: Sums, n: real, a: real, b: real)
    requires OnLine(t, n, a, b) && n != 0.0 && Denominator(n, t) != 0.0
    ensures SlopeOf(n, t, Denominator(n, t)) == a
    ensures InterceptOf(n, t, a) == b
  {
    var denom := Denominator(n, t);
    assert n * t.xy - t.x * t.y == a * denom;
    assert t.y - a * t.x == n * b;
  }

  lemma {:induction false} LinearResiduals(s: Series, a: real, b: real, meanY: real)
    requires Linear(s, a, b)
    ensures SquaresOf(s, a, b, meanY).res == 0.0
    decreases |s|
  {
    if |s| > 0 {
      var init := s[..|s| - 1];
      LinearPrefix(s, a, b);
      LinearResiduals(init, a, b, meanY);
    }
  }

  /**
   * A series lying exactly on a line whose times spread enough to clear the
   * denominator test gets that line back, with R squared 1 (or 0 when the
   * line is flat and nothing varies).
   */
  lemma LinearFit(s: Series, a: real, b: real)
    requires |s| >= 2 && Linear(s, a, b) && Abs(Denominator(|s| as real, SumsOf(s))) >= EPSILON
    ensures Regression(s).slope == a && Regression(s).intercept == b
    ensures Regression(s).rSquared == if SumSquaredDiffs(s, Mean(s)) > 0.0 then 1.0 else 0.0
  {
    var n := |s| as real;
    var t := SumsOf(s);
    var denom := Denominator(n, t);
    LinearSums(s, a, b);
    LinearResiduals(s, a, b, t.y / n);
    LinearAlgebra(t, n, a, b);
    SumsOfY(s);
    SquaresTotal(s, a, b, t.y / n);
  }

  /** A constant series is the flat line at its value, so its sums are those of LinearSums with slope 0. */
  lemma ConstantCrossSum(s: Series, c: real)
    requires Constant(s, c)
    ensures SumsOf(s).xy == c * SumsOf(s).x
    ensures SumsOf(s).y == (|s| as real) * c
  {
    forall i | 0 <= i < |s| ensures s[i].value == LineAt(0.0, c, s[i].timestampMs as real) {
    }
    LinearSums(s, 0.0, c);
  }

  /** A constant series fits a flat line at its value. */
  lemma ConstantFit(s: Series, c: real)
    requires |s| >= 2 && Constant(s, c)
    ensures Regression(s).slope == 0.0 && Regression(s).intercept == c
  {
    ConstantCrossSum(s, c);
    var n := |s| as real;
    var t := SumsOf(s);
    assert n * t.xy - t.x * t.y == n * (c * t.x) - t.x * (n * c);
    assert n * (c * t.x) == t.x * (n * c);
    assert t.y / n == c;
    if Abs(Denominator(n, t)) >= EPSILON {
      assert SlopeOf(n, t, Denominator(n, t)) == 0.0;
      assert InterceptOf(n, t, 0.0) == c;
    }
  }

  // ---------------------------------------------------------------- the analyses as values

  /** The series stored for (id, param), empty when either key is missing. */
  function SeriesIn(data: map<string, map<string, Series>>, id: string, param: string): Series {
    if id in data && param in data[id] then data[id][param] else []
  }

  /** cv > 0.2 with cv = stdDev / |mean|, read as IEEE division: a zero mean gives +inf, or NaN when stdDev is 0 too. */
  predicate HighVariation(stdDev: real, mean: real) {
    if mean == 0.0 then stdDev > 0.0 else stdDev / Abs(mean) > 0.2
  }

  function DirectionOf(slope: real, trendThreshold: real): Direction {
    if Abs(slope) < trendThreshold then Stable else if slope > 0.0 then Increasing else Decreasing
  }

  /** analyzeTrend over a stored series. */
  function TrendOf(series: Series, windowSize: int, trendThreshold: real, root: real -> real): TrendResult {
    if |series| < 3 then NO_TREND
    else
      var window := LastPoints(series, windowSize);
      var fit := Regression(window);
      var mean := Mean(window);
      var stdDev := StdDev(window, mean, root);
      var last := series[|series| - 1];
      TrendResult(
        if HighVariation(stdDev, mean) then Volatile else DirectionOf(fit.slope, trendThreshold),
        fit.slope, fit.rSquared, last.value,
        LineAt(fit.slope, fit.intercept, (last.timestampMs + 10000) as real),
        Clamp01(Abs(ZScore(last.value, mean, stdDev)) / 5.0))
  }

  /**
   * Too short a series gives the default result; otherwise the score is in
   * [0,1], a high spread makes the trend Volatile, and without it the slope
   * alone decides Stable, Increasing or Decreasing.
   */
  lemma TrendSpec(series: Series, windowSize: int, trendThreshold: real, root: real -> real)
    ensures |series| < 3 ==> TrendOf(series, windowSize, trendThreshold, root) == NO_TREND
    ensures 0.0 <= TrendOf(series, windowSize, trendThreshold, root).anomalyScore <= 1.0
    ensures |series| >= 3 ==>
      var r := TrendOf(series, windowSize, trendThreshold, root);
      var w := LastPoints(series, windowSize);
      var hv := HighVariation(StdDev(w, Mean(w), root), Mean(w));
      && r.currentValue == series[|series| - 1].value
      && r.slope == Regression(w).slope
      && (r.direction == Volatile <==> hv)
      && (r.direction == Stable <==> !hv && Abs(r.slope) < trendThreshold)
      && (r.direction == Increasing <==> !hv && r.slope >= trendThreshold && r.slope > 0.0)
      && (r.direction == Decreasing <==> !hv && r.slope <= -trendThreshold && r.slope <= 0.0)
  {
  }

  /** A constant series of at least three points is Stable with a flat fit at its value and no anomaly score. */
  lemma ConstantTrend(series: Series, c: real, windowSize: int, trendThreshold: real, root: real -> real)
    requires |series| >= 3 && Constant(series, c) && (windowSize < 0 || windowSize >= 2)
    requires trendThreshold > 0.0 && root(0.0) == 0.0
    ensures var r := TrendOf(series, windowSize, trendThreshold, root);
      r.direction == Stable && r.slope == 0.0 && r.currentValue == c && r.anomalyScore == 0.0
  {
    var window := LastPoints(series, windowSize);
    assert Constant(window, c) by {
      LastPointsSpec(series, windowSize);
    }
    ConstantFit(window, c);
    ConstantMean(window, c);
    assert StdDev(window, c, root) == 0.0;
  }

  /** predictValue. */
  function PredictionOf(series: Series, windowSize: int, secondsAhead: int): real {
    if |series| < 3 then (if |series| == 0 then 0.0 else series[|series| - 1].value)
    else
      var fit := Regression(LastPoints(series, windowSize));
      LineAt(fit.slope, fit.intercept, (series[|series| - 1].timestampMs + secondsAhead * 1000) as real)
  }

  /** predictThresholdCrossing: the millisecond time the fitted line meets the threshold, when that is after the last point. */
  function CrossingOf(series: Series, windowSize: int, threshold: real): Option<int> {
    if |series| < 3 then None
    else
      var fit := Regression(LastPoints(series, windowSize));
      if Abs(fit.slope) < EPSILON then None
      else
        var crossing := (threshold - fit.intercept) / fit.slope;
        if crossing > series[|series| - 1].timestampMs as real then Some(Truncate(crossing)) else None
  }

  /** A crossing is only reported for a sloped fit, at a time no earlier than the last point, where the line meets the threshold. */
  lemma CrossingSpec(series: Series, windowSize: int, threshold: real)
    ensures CrossingOf(series, windowSize, threshold).Some? ==>
      var fit := Regression(LastPoints(series, windowSize));
      && |series| >= 3
      && Abs(fit.slope) >= EPSILON
      && CrossingOf(series, windowSize, threshold).value >= series[|series| - 1].timestampMs
      && LineAt(fit.slope, fit.intercept, (threshold - fit.intercept) / fit.slope) == threshold
  {
    if CrossingOf(series, windowSize, threshold).Some? {
      var fit := Regression(LastPoints(series, windowSize));
      LineMeets(fit.slope, fit.intercept, threshold);
      TruncateAbove((threshold - fit.intercept) / fit.slope, series[|series| - 1].timestampMs);
    }
  }

  /** The line meets the threshold at (threshold - intercept) / slope. */
  lemma LineMeets(slope: real, intercept: real, threshold: real)
    requires slope != 0.0
    ensures LineAt(slope, intercept, (threshold - intercept) / slope) == threshold
  {
  }

  /** Truncation toward zero keeps a time past the last point at or after it. */
  lemma TruncateAbove(x: real, last: int)
    requires x > last as real
    ensures Truncate(x) >= last
  {
    if x < 0.0 {
      assert (-x).Floor as real <= -x;
    }
  }

  /** isAnomaly over a stored series. */
  predicate AnomalousIn(series: Series, value: real, threshold: real, root: real -> real) {
    && |series| >= 10
    && Abs(ZScore(value, Mean(series), StdDev(series, Mean(series), root))) > threshold
  }

  /** Fewer than ten points never flag, and a flat series never flags under a non-negative threshold. */
  lemma AnomalySpec(series: Series, value: real, threshold: real, root: real -> real)
    ensures |series| < 10 ==> !AnomalousIn(series, value, threshold, root)
    ensures StdDev(series, Mean(series), root) < EPSILON && threshold >= 0.0 ==> !AnomalousIn(series, value, threshold, root)
  {
  }

  /** pruneOldData on one series: pops from the front while the oldest point is before the cutoff. */
  function DropOlder(s: Series, cutoff: int): Series
    decreases |s|
  {
    if |s| > 0 && s[0].timestampMs < cutoff then DropOlder(s[1..], cutoff) else s
  }

  /** Pruning keeps a suffix whose first point is not before the cutoff, and removes only points before it. */
  lemma {:induction false} DropOlderSpec(s: Series, cutoff: int)
    ensures var r := DropOlder(s, cutoff);
      && |r| <= |s| && r == s[|s| - |r|..]
      && (|r| > 0 ==> r[0].timestampMs >= cutoff)
      && forall i :: 0 <= i < |s| - |r| ==> s[i].timestampMs < cutoff
    decreases |s|
  {
    if |s| > 0 && s[0].timestampMs < cutoff {
      DropOlderSpec(s[1..], cutoff);
      var r := DropOlder(s, cutoff);
      assert s[1..][|s[1..]| - |r|..] == s[|s| - |r|..];
      forall i | 0 <= i < |s| - |r|
        ensures s[i].timestampMs < cutoff
      {
        if i > 0 {
          assert s[i] == s[1..][i - 1];
        }
      }
    }
  }

  function PrunedUnit(m: map<string, Series>, cutoff: int): map<string, Series> {
    map p | p in m :: DropOlder(m[p], cutoff)
  }

  function Pruned(data: map<string, map<string, Series>>, cutoff: int): map<string, map<string, Series>> {
    map id | id in data :: PrunedUnit(data[id], cutoff)
  }

  // ---------------------------------------------------------------- the loops

  /** computeMean. */
  method ComputeMean(s: Series) returns (mean: real)
    ensures mean == Mean(s)
  {
    if |s| == 0 {
      return 0.0;
    }
    var sum := 0.0;
    var i := 0;
    while i < |s|
      invariant 0 <= i <= |s|
      invariant sum == SumValues(s[..i])
    {
      assert s[..i + 1][..i] == s[..i];
      sum := sum + s[i].value;
      i := i + 1;
    }
    assert s[..i] == s;
    mean := sum / (|s| as real);
  }

  /** computeStdDev. */
  method ComputeStdDev(s: Series, mean: real, root: real -> real) returns (stdDev: real)
    ensures stdDev == StdDev(s, mean, root)
  {
    if |s| < 2 {
      return 0.0;
    }
    var sumSq := 0.0;
    var i := 0;
    while i < |s|
      invariant 0 <= i <= |s|
      invariant sumSq == SumSquaredDiffs(s[..i], mean)
    {
      assert s[..i + 1][..i] == s[..i];
      var diff := s[i].value - mean;
      sumSq := sumSq + Square(diff);
      i := i + 1;
    }
    assert s[..i] == s;
    stdDev := root(sumSq / ((|s| - 1) as real));
  }

  /** The first pass of computeLinearRegression. */
  method Accumulate(s: Series) returns (t: Sums)
    ensures t == SumsOf(s)
  {
    t := Sums(0.0, 0.0, 0.0, 0.0);
    var i := 0;
    while i < |s|
      invariant 0 <= i <= |s|
      invariant t == SumsOf(s[..i])
    {
      assert s[..i + 1][..i] == s[..i];
      var x, y := s[i].timestampMs as real, s[i].value;
      t := Sums(t.x + x, t.y + y, t.xy + x * y, t.x2 + x * x);
      i := i + 1;
    }
    assert s[..i] == s;
  }

  /** The second pass of computeLinearRegression. */
  method Residuals(s: Series, slope: real, intercept: real, meanY: real) returns (q: Squares)
    ensures q == SquaresOf(s, slope, intercept, meanY)
  {
    q := Squares(0.0, 0.0);
    var i := 0;
    while i < |s|
      invariant 0 <= i <= |s|
      invariant q == SquaresOf(s[..i], slope, intercept, meanY)
    {
      assert s[..i + 1][..i] == s[..i];
      var predicted := LineAt(slope, intercept, s[i].timestampMs as real);
      q := Squares(q.res + Square(s[i].value - predicted), q.tot + Square(s[i].value - meanY));
      i := i + 1;
    }
    assert s[..i] == s;
  }

  /** computeLinearRegression. */
  method ComputeLinearRegression(s: Series) returns (fit: Fit)
    ensures fit == Regression(s)
  {
    if |s| < 2 {
      return Fit(0.0, 0.0, 0.0);
    }
    var n := |s| as real;
    var t := Accumulate(s);
    var denom := Denominator(n, t);
    if Abs(denom) < EPSILON {
      return Fit(0.0, t.y / n, 0.0);
    }
    var slope := SlopeOf(n, t, denom);
    var intercept := InterceptOf(n, t, slope);
    var q := Residuals(s, slope, intercept, t.y / n);
    return Fit(slope, intercept, RSquaredOf(q));
  }

  /** pruneOldData's inner while loop. */
  method PopOlder(s: Series, cutoff: int) returns (r: Series)
    ensures r == DropOlder(s, cutoff)
  {
    r := s;
    while |r| > 0 && r[0].timestampMs < cutoff
      invariant DropOlder(r, cutoff) == DropOlder(s, cutoff)
      decreases |r|
    {
      r := r[1..];
    }
  }

  /** pruneOldData's loop over the listed parameters of one unit. */
  method PruneEach(keys: seq<string>, m: map<string, Series>, cutoff: int) returns (r: map<string, Series>)
    requires forall p :: p in keys ==> p in m
    ensures forall p :: p in keys ==> p in r
    ensures forall p :: p in r ==> p in m && r[p] == DropOlder(m[p], cutoff)
  {
    r := map[];
    var i := 0;
    while i < |keys|
      invariant 0 <= i <= |keys|
      invariant forall j :: 0 <= j < i ==> keys[j] in r
      invariant forall p :: p in r ==> p in m && r[p] == DropOlder(m[p], cutoff)
    {
      var pruned := PopOlder(m[keys[i]], cutoff);
      r := r[keys[i] := pruned];
      i := i + 1;
    }
  }

  /** pruneOldData over one unit's parameters. */
  method PruneUnit(m: map<string, Series>, cutoff: int) returns (r: map<string, Series>)
    ensures r == PrunedUnit(m, cutoff)
  {
    var keys := SortedKeys(m.Keys);
    r := PruneEach(keys, m, cutoff);
    assert forall p :: p in m ==> p in keys;
  }

  /** pruneOldData's outer loop over the listed units. */
  method PruneUnits(keys: seq<string>, d: map<string, map<string, Series>>, cutoff: int)
    returns (r: map<string, map<string, Series>>)
    requires forall id :: id in keys ==> id in d
    ensures forall id :: id in keys ==> id in r
    ensures forall id :: id in r ==> id in d && r[id] == PrunedUnit(d[id], cutoff)
  {
    r := map[];
    var i := 0;
    while i < |keys|
      invariant 0 <= i <= |keys|
      invariant forall j :: 0 <= j < i ==> keys[j] in r
      invariant forall id :: id in r ==> id in d && r[id] == PrunedUnit(d[id], cutoff)
    {
      var pruned := PruneUnit(d[keys[i]], cutoff);
      r := r[keys[i] := pruned];
      i := i + 1;
    }
  }

  /** pruneOldData over every unit. */
  method PruneAll(d: map<string, map<string, Series>>, cutoff: int) returns (r: map<string, map<string, Series>>)
    ensures r == Pruned(d, cutoff)
  {
    var units := SortedKeys(d.Keys);
    r := PruneUnits(units, d, cutoff);
    assert forall id :: id in d ==> id in units;
  }

  /** addDataPoint's eviction loop. */
  method Evict(s: Series, cap: nat) returns (r: Series)
    ensures r == KeepLast(s, cap)
  {
    r := s;
    while |r| > cap
      invariant |r| <= |s| && r == s[|s| - |r|..] && |r| >= Min(|s|, cap)
      decreases |r|
    {
      r := r[1..];
    }
  }

  /** isAnomaly over a series. */
  method CheckAnomaly(series: Series, value: real, threshold: real, root: real -> real) returns (anomalous: bool)
    ensures anomalous == AnomalousIn(series, value, threshold, root)
  {
    if |series| < 10 {
      return false;
    }
    var mean := ComputeMean(series);
    var stdDev := ComputeStdDev(series, mean, root);
    anomalous := Abs(ZScore(value, mean, stdDev)) > threshold;
  }

  class TrendAnalyzer {
    var data: map<string, map<string, Series>>
    var windowSize: int
    var anomalyThreshold: real
    var trendThreshold: real
    var events: seq<TrendSignal>

    constructor ()
      ensures data == map[] && events == []
      ensures windowSize == DEFAULT_WINDOW_SIZE && anomalyThreshold == DEFAULT_ANOMALY_THRESHOLD
      ensures trendThreshold == DEFAULT_TREND_THRESHOLD
    {
      data := map[];
      windowSize := DEFAULT_WINDOW_SIZE;
      anomalyThreshold := DEFAULT_ANOMALY_THRESHOLD;
      trendThreshold := DEFAULT_TREND_THRESHOLD;
      events := [];
    }

    /** The parameters stored for a unit, none when it is unknown. */
    function UnitData(id: string): map<string, Series>
      reads this`data
    {
      if id in data then data[id] else map[]
    }

    /** isAnomaly. */
    method IsAnomaly(id: string, param: string, value: real, root: real -> real) returns (anomalous: bool)
      ensures anomalous == AnomalousIn(SeriesIn(data, id, param), value, anomalyThreshold, root)
    {
      anomalous := CheckAnomaly(SeriesIn(data, id, param), value, anomalyThreshold, root);
    }

    /** addDataPoint: append, evict the oldest beyond MAX_DATA_POINTS, then test the new value against the series that now holds it. */
    method AddDataPoint(id: string, param: string, value: real, timestampMs: int, root: real -> real)
      modifies this`data, this`events
      ensures data == old(data)[id := old(UnitData(id))[param := KeepLast(SeriesIn(old(data), id, param) + [DataPoint(value, timestampMs)], MAX_DATA_POINTS)]]
      ensures events == old(events) +
        if AnomalousIn(SeriesIn(data, id, param), value, anomalyThreshold, root)
        then [AnomalyDetected(id, param, value, Mean(SeriesIn(data, id, param)))] else []
    {
      var series := Evict(SeriesIn(data, id, param) + [DataPoint(value, timestampMs)], MAX_DATA_POINTS);
      data := data[id := UnitData(id)[param := series]];
      assert SeriesIn(data, id, param) == series;
      var anomalous := CheckAnomaly(series, value, anomalyThreshold, root);
      if anomalous {
        var mean := ComputeMean(series);
        events := events + [AnomalyDetected(id, param, value, mean)];
      }
    }

    /** analyzeTrend. */
    method AnalyzeTrend(id: string, param: string, root: real -> real) returns (r: TrendResult)
      ensures r == TrendOf(SeriesIn(data, id, param), windowSize, trendThreshold, root)
    {
      var series := SeriesIn(data, id, param);
      if |series| < 3 {
        return NO_TREND;
      }
      var window := LastPoints(series, windowSize);
      var fit := ComputeLinearRegression(window);
      var direction := DirectionOf(fit.slope, trendThreshold);
      var mean := ComputeMean(window);
      var stdDev := ComputeStdDev(window, mean, root);
      if HighVariation(stdDev, mean) {
        direction := Volatile;
      }
      var last := series[|series| - 1];
      var predicted := LineAt(fit.slope, fit.intercept, (last.timestampMs + 10000) as real);
      var score := Clamp01(Abs(ZScore(last.value, mean, stdDev)) / 5.0);
      r := TrendResult(direction, fit.slope, fit.rSquared, last.value, predicted, score);
    }

    /** predictValue. */
    method PredictValue(id: string, param: string, secondsAhead: int) returns (v: real)
      ensures v == PredictionOf(SeriesIn(data, id, param), windowSize, secondsAhead)
    {
      var series := SeriesIn(data, id, param);
      if |series| < 3 {
        return if |series| == 0 then 0.0 else series[|series| - 1].value;
      }
      var fit := ComputeLinearRegression(LastPoints(series, windowSize));
      v := LineAt(fit.slope, fit.intercept, (series[|series| - 1].timestampMs + secondsAhead * 1000) as real);
    }

    /** predictThresholdCrossing: None stands for an invalid QDateTime. */
    method PredictThresholdCrossing(id: string, param: string, threshold: real) returns (t: Option<int>)
      ensures t == CrossingOf(SeriesIn(data, id, param), windowSize, threshold)
    {
      var series := SeriesIn(data, id, param);
      if |series| < 3 {
        return None;
      }
      var fit := ComputeLinearRegression(LastPoints(series, windowSize));
      if Abs(fit.slope) < EPSILON {
        return None;
      }
      var crossing := (threshold - fit.intercept) / fit.slope;
      if crossing > series[|series| - 1].timestampMs as real {
        return Some(Truncate(crossing));
      }
      return None;
    }

    /** getDataPoints: the newest maxPoints points, oldest first. */
    method GetDataPoints(id: string, param: string, maxPoints: int) returns (points: Series)
      ensures points == LastPoints(SeriesIn(data, id, param), maxPoints)
    {
      var series := SeriesIn(data, id, param);
      var start := if maxPoints >= 0 && |series| > maxPoints then |series| - maxPoints else 0;
      points := [];
      var i := start;
      while i < |series|
        invariant start <= i <= |series|
        invariant points == series[start..i]
      {
        points := points + [series[i]];
        i := i + 1;
      }
    }

    /** clearData: forgets one unit. */
    method ClearData(id: string)
      modifies this`data
      ensures data == old(data) - {id}
    {
      data := data - {id};
    }

    /** clearAllData. */
    method ClearAllData()
      modifies this`data
      ensures data == map[]
    {
      data := map[];
    }

    /** pruneOldData: drops, from the front of every series, the points older than maxAgeHours before now. */
    method PruneOldData(now: int, maxAgeHours: int)
      modifies this`data
      ensures data == Pruned(old(data), now - maxAgeHours * 3600000)
    {
      data := PruneAll(data, now - maxAgeHours * 3600000);
    }
  }
}
