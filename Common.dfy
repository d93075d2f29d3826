/** Types shared by the indicators: price bars, nullable values, the
    exceptions an indicator can raise, and the running sums they compute. */
module Common {

  /** One price bar. The source's `decimal` prices are exact reals here;
      `date` stands for the bar's timestamp and is only ever copied. */
  datatype Quote = Quote(date: int, open: real, high: real, low: real, close: real, volume: real)

  /** A C# nullable value (`decimal?`, `int?`, a null reference). */
  datatype Option<+T> = None | Some(value: T)

  /** The exceptions the indicators throw, as values. */
  datatype Error =
    | ArgumentOutOfRange(paramName: string)  // ArgumentOutOfRangeException(nameof(...))
    | BadHistory                             // BadHistoryException
    | BadQuotes                              // BadQuotesException
    | DivideByZero                           // DivideByZeroException from decimal division

  /** Either the indicator's results or the exception it throws. */
  datatype Result<+T> = Success(value: T) | Failure(error: Error)

  /** Left-to-right sum, in the order the source's accumulator loops add. */
  function Sum(s: seq<real>): real
  {
    if |s| == 0 then 0.0 else Sum(s[..|s| - 1]) + s[|s| - 1]
  }

  /** Every term of a sum lies in [lo, hi], so the sum lies in [|s|*lo, |s|*hi]. */
  lemma {:induction false} SumBounds(s: seq<real>, lo: real, hi: real)
    requires forall j :: 0 <= j < |s| ==> lo <= s[j] <= hi
    ensures |s| as real * lo <= Sum(s) <= |s| as real * hi
  {
    if |s| > 0 {
      SumBounds(s[..|s| - 1], lo, hi);
    }
  }

  /** Dividing bounds n*lo <= s <= n*hi by a positive n. */
  lemma DivideBounds(s: real, n: real, lo: real, hi: real)
    requires n > 0.0
    requires n * lo <= s <= n * hi
    ensures lo <= s / n <= hi
  {
    var q := s / n;
    assert q * n == s;
    assert n * (q - lo) >= 0.0;
    assert n * (hi - q) >= 0.0;
  }

  /** Scaling bounds lo <= x <= hi by a non-negative m. */
  lemma ScaleBounds(x: real, m: real, lo: real, hi: real)
    requires m >= 0.0
    requires lo <= x <= hi
    ensures m * lo <= x * m <= m * hi
  {
    assert m * (x - lo) >= 0.0;
    assert m * (hi - x) >= 0.0;
  }

  /** A square is never negative, and is positive off zero. */
  lemma SquareNonNegative(d: real)
    ensures d * d >= 0.0
    ensures d != 0.0 ==> d * d > 0.0
  {
    if d < 0.0 {
      assert d * d == (-d) * (-d);
    }
  }
}
