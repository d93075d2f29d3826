/** Least-squares slope and intercept of the closing price over a trailing
    window, and the fitted line of the last window. Bar positions are the
    1-based row numbers: the window of row `index` holds the bars at
    0-based positions index - lookback .. index - 1, whose x values are
    index - lookback + 1 .. index. */
module Slope {
  import opened Common

  /** StdDev and RSquared, computed in binary floating point, are not part
      of this model. */
  datatype SlopeResult = SlopeResult(date: int, slope: Option<real>, intercept: Option<real>, line: Option<real>)

  /** Sum of the x values p + 1 for p in [lo, hi). */
  function SumX(lo: int, hi: int): real
    decreases hi - lo
  {
    if hi <= lo then 0.0 else SumX(lo, hi - 1) + (hi - 1 + 1) as real
  }

  /** Sum of the closes of the bars at positions [lo, hi). */
  function SumY(quotes: seq<Quote>, lo: int, hi: int): real
    requires 0 <= lo && hi <= |quotes|
    decreases hi - lo
  {
    if hi <= lo then 0.0 else SumY(quotes, lo, hi - 1) + quotes[hi - 1].close
  }

  /** Sum of (x - avgX)^2 over positions [lo, hi). */
  function SumSqX(lo: int, hi: int, avgX: real): real
    decreases hi - lo
  {
    if hi <= lo then 0.0
    else
      var devX := (hi - 1 + 1) as real - avgX;
      SumSqX(lo, hi - 1, avgX) + devX * devX
  }

  /** Sum of (x - avgX) * (close - avgY) over positions [lo, hi). */
  function SumSqXY(quotes: seq<Quote>, lo: int, hi: int, avgX: real, avgY: real): real
    requires 0 <= lo && hi <= |quotes|
    decreases hi - lo
  {
    if hi <= lo then 0.0
    else
      var devX := (hi - 1 + 1) as real - avgX;
      var devY := quotes[hi - 1].close - avgY;
      SumSqXY(quotes, lo, hi - 1, avgX, avgY) + devX * devY
  }

  /** Mean x of the window ending at row `index`. */
  function AvgX(index: int, lookback: int): real
    requires lookback >= 1
  {
    SumX(index - lookback, index) / lookback as real
  }

  /** Mean close of the window ending at row `index`. */
  function AvgY(quotes: seq<Quote>, index: int, lookback: int): real
    requires 1 <= lookback <= index <= |quotes|
  {
    SumY(quotes, index - lookback, index) / lookback as real
  }

  /** Least-squares slope of the window ending at row `index`; a window of one
      bar has no slope (the source divides by zero there). */
  function SlopeAt(quotes: seq<Quote>, index: int, lookback: int): real
    requires 2 <= lookback <= index <= |quotes|
  {
    var avgX := AvgX(index, lookback);
    var avgY := AvgY(quotes, index, lookback);
    SumSqXZeroIffSingleBar(index, lookback);
    SumSqXNonNegative(index - lookback, index, avgX);
    SumSqXY(quotes, index - lookback, index, avgX, avgY) / SumSqX(index - lookback, index, avgX)
  }

  /** Intercept of the fitted line y = slope * x + intercept. */
  function InterceptAt(quotes: seq<Quote>, index: int, lookback: int): (b: real)
    requires 2 <= lookback <= index <= |quotes|
    ensures SlopeAt(quotes, index, lookback) * AvgX(index, lookback) + b == AvgY(quotes, index, lookback)
  {
    AvgY(quotes, index, lookback) - SlopeAt(quotes, index, lookback) * AvgX(index, lookback)
  }

  /** The x values of a window sum to count * (lo + hi + 1) / 2. */
  lemma {:induction false} SumXClosedForm(lo: int, hi: int)
    requires lo <= hi
    ensures SumX(lo, hi) == (hi - lo) as real * (lo + hi + 1) as real / 2.0
    decreases hi - lo
  {
    if hi > lo {
      SumXClosedForm(lo, hi - 1);
    }
  }

  /** The mean position of the window is its midpoint, index - (lookback - 1) / 2. */
  lemma AvgXIsMidpoint(index: int, lookback: int)
    requires lookback >= 1
    ensures AvgX(index, lookback) == index as real - (lookback - 1) as real / 2.0
  {
    SumXClosedForm(index - lookback, index);
    var n := lookback as real;
    var s := SumX(index - lookback, index);
    assert s == n * (2 * index - lookback + 1) as real / 2.0;
    assert s / n == (2 * index - lookback + 1) as real / 2.0;
  }

  /** Sums of squares are never negative, and each term is at most the sum. */
  lemma {:induction false} SumSqXBoundsTerm(lo: int, hi: int, avgX: real, p: int)
    requires lo <= p < hi
    ensures SumSqX(lo, hi, avgX) >= ((p + 1) as real - avgX) * ((p + 1) as real - avgX)
    decreases hi - lo
  {
    SumSqXNonNegative(lo, hi - 1, avgX);
    SquareNonNegative((hi - 1 + 1) as real - avgX);
    if p < hi - 1 {
      SumSqXBoundsTerm(lo, hi - 1, avgX, p);
    }
  }

  lemma {:induction false} SumSqXNonNegative(lo: int, hi: int, avgX: real)
    ensures SumSqX(lo, hi, avgX) >= 0.0
    decreases hi - lo
  {
    if hi > lo {
      SumSqXNonNegative(lo, hi - 1, avgX);
      SquareNonNegative((hi - 1 + 1) as real - avgX);
    }
  }

  /** The denominator sumSqX of the slope is zero exactly when the window has one
      bar: every window of two or more distinct x values has positive spread. */
  lemma SumSqXZeroIffSingleBar(index: int, lookback: int)
    requires lookback >= 1
    ensures SumSqX(index - lookback, index, AvgX(index, lookback)) == 0.0 <==> lookback == 1
  {
    var lo := index - lookback;
    var avgX := AvgX(index, lookback);
    AvgXIsMidpoint(index, lookback);
    if lookback == 1 {
      assert avgX == index as real;
      assert SumSqX(lo, index - 1, avgX) == 0.0;
    } else {
      // the first x value lies (lookback - 1) / 2 below the mean
      var d0 := (lo + 1) as real - avgX;
      assert d0 == -((lookback - 1) as real) / 2.0;
      SumSqXBoundsTerm(lo, index, avgX, lo);
      SquareNonNegative(d0);
      assert SumSqX(lo, index, avgX) >= d0 * d0 > 0.0;
    }
  }

  /** When the closes of a window lie on y = a * x + b, so does their sum. */
  lemma {:induction false} SumYOfLine(quotes: seq<Quote>, lo: int, hi: int, a: real, b: real)
    requires 0 <= lo <= hi <= |quotes|
    requires forall p :: lo <= p < hi ==> quotes[p].close == a * (p + 1) as real + b
    ensures SumY(quotes, lo, hi) == a * SumX(lo, hi) + (hi - lo) as real * b
    decreases hi - lo
  {
    if hi > lo {
      SumYOfLine(quotes, lo, hi - 1, a, b);
    }
  }

  /** ... and every close deviates from the mean close a times as much as its
      x deviates from the mean x. */
  lemma {:induction false} SumSqXYOfLine(quotes: seq<Quote>, lo: int, hi: int, a: real, b: real, avgX: real, avgY: real)
    requires 0 <= lo <= hi <= |quotes|
    requires forall p :: lo <= p < hi ==> quotes[p].close == a * (p + 1) as real + b
    requires avgY == a * avgX + b
    ensures SumSqXY(quotes, lo, hi, avgX, avgY) == a * SumSqX(lo, hi, avgX)
    decreases hi - lo
  {
    if hi > lo {
      SumSqXYOfLine(quotes, lo, hi - 1, a, b, avgX, avgY);
      var devX := hi as real - avgX;
      assert quotes[hi - 1].close - avgY == a * devX;
      assert devX * (a * devX) == a * (devX * devX);
    }
  }

  /** The mean close of a window on y = a * x + b is a * (mean x) + b. */
  lemma AvgYOfLine(quotes: seq<Quote>, index: int, lookback: int, a: real, b: real)
    requires 1 <= lookback <= index <= |quotes|
    requires forall p :: index - lookback <= p < index ==> quotes[p].close == a * (p + 1) as real + b
    ensures AvgY(quotes, index, lookback) == a * AvgX(index, lookback) + b
  {
    var n := lookback as real;
    SumYOfLine(quotes, index - lookback, index, a, b);
    var sx := SumX(index - lookback, index);
    assert (a * sx + n * b) / n == a * (sx / n) + b;
  }

  /** The least-squares fit recovers a window whose closes lie exactly on a
      line: slope a and intercept b. */
  lemma FitReproducesLine(quotes: seq<Quote>, index: int, lookback: int, a: real, b: real)
    requires 2 <= lookback <= index <= |quotes|
    requires forall p :: index - lookback <= p < index ==> quotes[p].close == a * (p + 1) as real + b
    ensures SlopeAt(quotes, index, lookback) == a
    ensures InterceptAt(quotes, index, lookback) == b
  {
    var lo := index - lookback;
    var avgX := AvgX(index, lookback);
    var avgY := AvgY(quotes, index, lookback);
    AvgYOfLine(quotes, index, lookback, a, b);
    SumSqXYOfLine(quotes, lo, index, a, b, avgX, avgY);
    SumSqXZeroIffSingleBar(index, lookback);
    var sq := SumSqX(lo, index, avgX);
    assert SlopeAt(quotes, index, lookback) == a * sq / sq;
    assert a * sq / sq == a by {
      assert sq != 0.0;
    }
  }

  /** A flat window has slope 0 and its close as intercept. */
  lemma FlatWindow(quotes: seq<Quote>, index: int, lookback: int, c: real)
    requires 2 <= lookback <= index <= |quotes|
    requires forall p :: index - lookback <= p < index ==> quotes[p].close == c
    ensures SlopeAt(quotes, index, lookback) == 0.0
    ensures InterceptAt(quotes, index, lookback) == c
  {
    FitReproducesLine(quotes, index, lookback, 0.0, c);
  }

  /** ValidateSlope: lookback <= 0 is ArgumentOutOfRangeException, fewer quotes
      than the lookback is BadHistoryException. */
  function ValidateSlope(quotes: seq<Quote>, lookbackPeriod: int): (r: Option<Error>)
    ensures r == None <==> 0 < lookbackPeriod <= |quotes|
    ensures r == Some(ArgumentOutOfRange("lookbackPeriod")) <==> lookbackPeriod <= 0
    ensures r == Some(BadHistory) <==> 0 < lookbackPeriod && |quotes| < lookbackPeriod
  {
    if lookbackPeriod <= 0 then Some(ArgumentOutOfRange("lookbackPeriod"))
    else if |quotes| < lookbackPeriod then Some(BadHistory)
    else None
  }

  /** The Slope and Intercept a row holds once the loop has passed it: null
      until a full window is available. */
  function FitOf(quotes: seq<Quote>, lookbackPeriod: int, k: int): (Option<real>, Option<real>)
    requires 2 <= lookbackPeriod && 0 <= k < |quotes|
  {
    if k + 1 < lookbackPeriod then (None, None)
    else (Some(SlopeAt(quotes, k + 1, lookbackPeriod)), Some(InterceptAt(quotes, k + 1, lookbackPeriod)))
  }

  /** The first accumulator loop of one row: the window means. */
  method WindowAverages(quotes: seq<Quote>, index: int, lookbackPeriod: int) returns (avgX: real, avgY: real)
    requires 1 <= lookbackPeriod <= index <= |quotes|
    ensures avgX == AvgX(index, lookbackPeriod) && avgY == AvgY(quotes, index, lookbackPeriod)
  {
    var sumX := 0.0;
    var sumY := 0.0;
    for p := index - lookbackPeriod to index
      invariant sumX == SumX(index - lookbackPeriod, p)
      invariant sumY == SumY(quotes, index - lookbackPeriod, p)
    {
      var d := quotes[p];
      sumX := sumX + (p + 1) as real;
      sumY := sumY + d.close;
    }
    avgX := sumX / lookbackPeriod as real;
    avgY := sumY / lookbackPeriod as real;
  }

  /** The second accumulator loop of one row: the sums of squared and cross
      deviations about the window means. */
  method WindowDeviations(quotes: seq<Quote>, index: int, lookbackPeriod: int, avgX: real, avgY: real)
    returns (sumSqX: real, sumSqXY: real)
    requires 1 <= lookbackPeriod <= index <= |quotes|
    ensures sumSqX == SumSqX(index - lookbackPeriod, index, avgX)
    ensures sumSqXY == SumSqXY(quotes, index - lookbackPeriod, index, avgX, avgY)
  {
    sumSqX := 0.0;
    sumSqXY := 0.0;
    for p := index - lookbackPeriod to index
      invariant sumSqX == SumSqX(index - lookbackPeriod, p, avgX)
      invariant sumSqXY == SumSqXY(quotes, index - lookbackPeriod, p, avgX, avgY)
    {
      var d := quotes[p];
      var devX := (p + 1) as real - avgX;
      var devY := d.close - avgY;
      sumSqX := sumSqX + devX * devX;
      sumSqXY := sumSqXY + devX * devY;
    }
  }

  /** The intercept GetSlope computes from the window means and the slope
      is the fitted line's intercept. */
  lemma InterceptFromMeans(quotes: seq<Quote>, index: int, lookbackPeriod: int, slope: real, avgX: real, avgY: real)
    requires 2 <= lookbackPeriod <= index <= |quotes|
    requires slope == SlopeAt(quotes, index, lookbackPeriod)
    requires avgX == AvgX(index, lookbackPeriod) && avgY == AvgY(quotes, index, lookbackPeriod)
    ensures avgY - slope * avgX == InterceptAt(quotes, index, lookbackPeriod)
  {
  }

  /** The slope and intercept GetSlope computes for the window ending at row
      `index`, or the division by zero a one-bar window raises. */
  method WindowFit(quotes: seq<Quote>, index: int, lookbackPeriod: int) returns (fit: Result<(real, real)>)
    requires 1 <= lookbackPeriod <= index <= |quotes|
    ensures fit.Failure? <==> lookbackPeriod == 1
    ensures fit.Failure? ==> fit.error == DivideByZero
    ensures fit.Success? ==>
      lookbackPeriod >= 2 && fit.value == (SlopeAt(quotes, index, lookbackPeriod), InterceptAt(quotes, index, lookbackPeriod))
  {
    // get averages for period
    var avgX, avgY := WindowAverages(quotes, index, lookbackPeriod);

    // least squares method
    var sumSqX, sumSqXY := WindowDeviations(quotes, index, lookbackPeriod, avgX, avgY);

    SumSqXZeroIffSingleBar(index, lookbackPeriod);
    if sumSqX == 0.0 {
      // decimal division by zero
      return Failure(DivideByZero);
    }
    var slope := sumSqXY / sumSqX;
    assert slope == SlopeAt(quotes, index, lookbackPeriod);
    var intercept := avgY - slope * avgX;
    InterceptFromMeans(quotes, index, lookbackPeriod, slope, avgX, avgY);
    return Success((slope, intercept));
  }

  /** The value of the line y = slope * x + intercept at row p, whose x is p + 1. */
  function LineValue(slope: real, intercept: real, p: int): real
  {
    slope * (p + 1) as real + intercept
  }

  /** The last loop of GetSlope: the rows of the final window get their Line
      value; every other field and row is kept. */
  method DrawLastLine(results: seq<SlopeResult>, lookbackPeriod: int, slope: real, intercept: real)
    returns (lined: seq<SlopeResult>)
    requires 1 <= lookbackPeriod <= |results|
    ensures |lined| == |results|
    ensures forall k :: 0 <= k < |results| ==>
      lined[k] ==
        if |results| - lookbackPeriod <= k
        then results[k].(line := Some(LineValue(slope, intercept, k)))
        else results[k]
  {
    var lastIndex := |results|;
    lined := results;
    for p := lastIndex - lookbackPeriod to lastIndex
      invariant |lined| == lastIndex
      invariant forall k :: 0 <= k < lastIndex ==>
        lined[k] ==
          if lastIndex - lookbackPeriod <= k < p
          then results[k].(line := Some(LineValue(slope, intercept, k)))
          else results[k]
    {
      var d := lined[p];
      lined := lined[p := d.(line := Some(slope * (p + 1) as real + intercept))];
    }
  }

  /** GetSlope over quotes already in date order. */
  method GetSlope(quotes: seq<Quote>, lookbackPeriod: int) returns (r: Result<seq<SlopeResult>>)
    ensures r == Failure(ArgumentOutOfRange("lookbackPeriod")) <==> lookbackPeriod <= 0
    ensures r == Failure(BadHistory) <==> 0 < lookbackPeriod && |quotes| < lookbackPeriod
    ensures r == Failure(DivideByZero) <==> lookbackPeriod == 1 && |quotes| >= 1
    ensures r.Success? ==>
      var n := |quotes|;
      && 2 <= lookbackPeriod <= n
      && |r.value| == n
      && forall k :: 0 <= k < n ==>
           && r.value[k].date == quotes[k].date
           && (r.value[k].slope, r.value[k].intercept) == FitOf(quotes, lookbackPeriod, k)
           && r.value[k].line ==
                if k < n - lookbackPeriod then None
                else Some(LineValue(SlopeAt(quotes, n, lookbackPeriod), InterceptAt(quotes, n, lookbackPeriod), k))
  {
    var invalid := ValidateSlope(quotes, lookbackPeriod);
    if invalid.Some? {
      return Failure(invalid.value);
    }
    var results: seq<SlopeResult> := [];

    // roll through quotes for interim data
    for i := 0 to |quotes|
      invariant |results| == i
      invariant lookbackPeriod == 1 ==> i == 0
      invariant forall k :: 0 <= k < i ==>
        && results[k].date == quotes[k].date
        && results[k].line == None
        && (results[k].slope, results[k].intercept) == FitOf(quotes, lookbackPeriod, k)
    {
      var h := quotes[i];
      var index := i + 1;
      results := results + [SlopeResult(h.date, None, None, None)];

      // skip initialization period
      if index < lookbackPeriod {
        assert FitOf(quotes, lookbackPeriod, i) == (None, None);
        continue;
      }

      var fit := WindowFit(quotes, index, lookbackPeriod);
      if fit.Failure? {
        return Failure(fit.error);
      }
      results := results[i := results[i].(slope := Some(fit.value.0), intercept := Some(fit.value.1))];
    }

    // add last Line (y = mx + b)
    var lastIndex := |quotes|;
    var last := results[lastIndex - 1];
    assert (last.slope, last.intercept) == FitOf(quotes, lookbackPeriod, lastIndex - 1);
    ghost var slopeN, interceptN := SlopeAt(quotes, lastIndex, lookbackPeriod), InterceptAt(quotes, lastIndex, lookbackPeriod);
    assert last.slope == Some(slopeN) && last.intercept == Some(interceptN);
    results := DrawLastLine(results, lookbackPeriod, last.slope.value, last.intercept.value);
    return Success(results);
  }
}
