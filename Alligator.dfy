/** Williams Alligator: three smoothed moving averages (jaw, teeth, lips) of
    the median price, each seeded by a simple moving average and shifted
    forward by its own offset. */
module Alligator {
  import opened Common

  datatype AlligatorResult = AlligatorResult(date: int, jaw: Option<real>, teeth: Option<real>, lips: Option<real>)

  const JawLookback: nat := 13
  const JawOffset: nat := 8
  const TeethLookback: nat := 8
  const TeethOffset: nat := 5
  const LipsLookback: nat := 5
  const LipsOffset: nat := 3

  /** The fewest quotes ValidateAlligator accepts. */
  const MinHistory: nat := 115

  /** The median price of every bar, `pr` in the source. */
  function MedianPrices(quotes: seq<Quote>): (pr: seq<real>)
    ensures |pr| == |quotes|
    ensures forall i :: 0 <= i < |quotes| ==> pr[i] == (quotes[i].high + quotes[i].low) / 2.0
  {
    seq(|quotes|, i requires 0 <= i < |quotes| => (quotes[i].high + quotes[i].low) / 2.0)
  }

  /** The value a line with this lookback and offset holds at row `k`: the
      mean of the first `lookback` median prices at its first row, then the
      smoothed average of the previous row's value and the median price
      `offset` rows back. */
  function Smma(pr: seq<real>, lookback: nat, offset: nat, k: int): real
    requires lookback >= 1
    requires lookback + offset - 1 <= k && k - offset < |pr|
    decreases k
  {
    if k == lookback + offset - 1 then Sum(pr[..lookback]) / lookback as real
    else (Smma(pr, lookback, offset, k - 1) * (lookback - 1) as real + pr[k - offset]) / lookback as real
  }

  /** A line's cell at row `k`: null before its first row. */
  function LineAt(pr: seq<real>, lookback: nat, offset: nat, k: int): Option<real>
    requires lookback >= 1
    requires 0 <= k < |pr|
  {
    if k < lookback + offset - 1 then None else Some(Smma(pr, lookback, offset, k))
  }

  /** Every value of a line lies between the least and the greatest of the
      median prices it is built from (those up to row k - offset). */
  lemma {:induction false} SmmaWithinPriceRange(pr: seq<real>, lookback: nat, offset: nat, k: int, lo: real, hi: real)
    requires lookback >= 1
    requires lookback + offset - 1 <= k && k - offset < |pr|
    requires forall j :: 0 <= j <= k - offset ==> lo <= pr[j] <= hi
    ensures lo <= Smma(pr, lookback, offset, k) <= hi
  {
    if k == lookback + offset - 1 {
      FirstSmmaWithinPriceRange(pr, lookback, lo, hi);
    } else {
      SmmaWithinPriceRange(pr, lookback, offset, k - 1, lo, hi);
      NextSmmaWithinPriceRange(pr, lookback, offset, k, lo, hi);
    }
  }

  /** A later value of a line stays in [lo, hi] when the previous row's
      value and the median price it smooths in do. */
  lemma NextSmmaWithinPriceRange(pr: seq<real>, lookback: nat, offset: nat, k: int, lo: real, hi: real)
    requires lookback >= 1
    requires lookback + offset - 1 < k && k - offset < |pr|
    requires lo <= Smma(pr, lookback, offset, k - 1) <= hi && lo <= pr[k - offset] <= hi
    ensures lo <= Smma(pr, lookback, offset, k) <= hi
  {
    var prev := Smma(pr, lookback, offset, k - 1);
    var x := pr[k - offset];
    assert Smma(pr, lookback, offset, k) == (prev * (lookback - 1) as real + x) / lookback as real;
    SmoothingStaysInRange(prev, x, lookback, lo, hi);
  }

  /** The first value of a line, the mean of the first `lookback` median
      prices, lies between their least and greatest. */
  lemma FirstSmmaWithinPriceRange(pr: seq<real>, lookback: nat, lo: real, hi: real)
    requires 1 <= lookback <= |pr|
    requires forall j :: 0 <= j < lookback ==> lo <= pr[j] <= hi
    ensures lo <= Sum(pr[..lookback]) / lookback as real <= hi
  {
    var window := pr[..lookback];
    assert forall j :: 0 <= j < |window| ==> lo <= window[j] <= hi;
    SumBounds(window, lo, hi);
    DivideBounds(Sum(window), lookback as real, lo, hi);
  }

  /** One smoothing step, (prev * (n - 1) + x) / n, of two values in [lo, hi]
      stays in [lo, hi]. */
  lemma SmoothingStaysInRange(prev: real, x: real, lookback: nat, lo: real, hi: real)
    requires lookback >= 1
    requires lo <= prev <= hi && lo <= x <= hi
    ensures lo <= (prev * (lookback - 1) as real + x) / lookback as real <= hi
  {
    var n := lookback as real;
    var m := (lookback - 1) as real;
    ScaleBounds(prev, m, lo, hi);
    assert m * lo + lo <= prev * m + x <= m * hi + hi;
    assert n * lo == m * lo + lo && n * hi == m * hi + hi;
    DivideBounds(prev * m + x, n, lo, hi);
  }

  /** ValidateAlligator: fewer than 115 quotes is BadQuotesException. */
  function ValidateAlligator(quotes: seq<Quote>): (r: Option<Error>)
    ensures r == None <==> |quotes| >= 115
    ensures r != None ==> r == Some(BadQuotes)
  {
    if |quotes| < MinHistory then Some(BadQuotes) else None
  }

  /** Sum of a[lo..hi], accumulated left to right. */
  method SumWindow(a: array<real>, lo: nat, hi: nat) returns (s: real)
    requires lo <= hi <= a.Length
    ensures s == Sum(a[lo..hi])
  {
    s := 0.0;
    for p := lo to hi
      invariant s == Sum(a[lo..p])
    {
      assert a[lo..p + 1][..p - lo] == a[lo..p];
      s := s + a[p];
    }
  }

  /** The three lines of the alligator; each is the same smoothed average with
      its own lookback and offset. */
  datatype Line = Jaw | Teeth | Lips {
    function Lookback(): nat
    {
      match this
      case Jaw => JawLookback
      case Teeth => TeethLookback
      case Lips => LipsLookback
    }

    function Offset(): nat
    {
      match this
      case Jaw => JawOffset
      case Teeth => TeethOffset
      case Lips => LipsOffset
    }
  }

  /** The result field that holds `line`. */
  function Field(r: AlligatorResult, line: Line): Option<real>
  {
    match line
    case Jaw => r.jaw
    case Teeth => r.teeth
    case Lips => r.lips
  }

  /** `r` with the field of `line` set to v; the other fields are kept. */
  function WithField(r: AlligatorResult, line: Line, v: real): (r': AlligatorResult)
    ensures Field(r', line) == Some(v)
    ensures forall other :: other != line ==> Field(r', other) == Field(r, other)
    ensures r'.date == r.date
  {
    match line
    case Jaw => r.(jaw := Some(v))
    case Teeth => r.(teeth := Some(v))
    case Lips => r.(lips := Some(v))
  }

  /** How far the loop of GetAlligator has filled `line`: after bar i - 1,
      every row before i + offset holds its final value and the rest are null. */
  ghost predicate FilledUpTo(results: seq<AlligatorResult>, prs: seq<real>, line: Line, i: int)
    requires |results| == |prs|
  {
    forall k :: 0 <= k < |results| ==>
      Field(results[k], line) == if k < i + line.Offset() then LineAt(prs, line.Lookback(), line.Offset(), k) else None
  }

  /** Writing the final value of the row `offset` rows past bar i moves the
      filled part of a line on by one bar. */
  lemma FillRow(rs: seq<AlligatorResult>, prs: seq<real>, line: Line, i: nat, r: AlligatorResult)
    requires |rs| == |prs| && i + line.Offset() < |rs|
    requires FilledUpTo(rs, prs, line, i)
    requires Field(r, line) == LineAt(prs, line.Lookback(), line.Offset(), i + line.Offset())
    ensures FilledUpTo(rs[i + line.Offset() := r], prs, line, i + 1)
  {
  }

  /** A bar whose row lies past the end, or comes before the line's first
      value, leaves the line as it is and still moves its filled part on. */
  lemma FillNothing(rs: seq<AlligatorResult>, prs: seq<real>, line: Line, i: nat)
    requires |rs| == |prs|
    requires FilledUpTo(rs, prs, line, i)
    requires i + line.Offset() < |rs| ==> i + 1 < line.Lookback()
    ensures FilledUpTo(rs, prs, line, i + 1)
  {
  }

  /** One pass of the jaw, teeth or lips block of the loop body for bar i:
      the first value is the mean of the first `lookback` median prices, and
      each later value smooths the previous row's value with pr[i]. */
  method SmoothLine(results: array<AlligatorResult>, pr: array<real>, ghost prs: seq<real>, i: nat, line: Line)
    requires results.Length == pr.Length == |prs| && i < |prs|
    requires pr[..i + 1] == prs[..i + 1]
    requires FilledUpTo(results[..], prs, line, i)
    modifies results
    ensures FilledUpTo(results[..], prs, line, i + 1)
    ensures forall k :: 0 <= k < results.Length ==> results[k].date == old(results[k].date)
    ensures forall other, k :: other != line && 0 <= k < results.Length ==>
      Field(results[k], other) == Field(old(results[k]), other)
  {
    var size := results.Length;
    var index := i + 1;
    var lookback := line.Lookback();
    var offset := line.Offset();
    // only calculate if the array index + offset is still in valid range
    if i + offset < size && index >= lookback {
      var k := i + offset;
      var value: real;
      if index == lookback {
        // first value: SMA
        var sumMedianPrice := SumWindow(pr, index - lookback, index);
        assert pr[0..index] == prs[..lookback];
        value := sumMedianPrice / lookback as real;
        assert value == Smma(prs, lookback, offset, k);
      } else {
        // remaining values: SMMA
        var prevValue := Field(results[k - 1], line);
        assert prevValue == LineAt(prs, lookback, offset, k - 1);
        assert pr[i] == prs[i];
        value := (prevValue.value * (lookback - 1) as real + pr[i]) / lookback as real;
        assert value == Smma(prs, lookback, offset, k);
      }
      FillRow(results[..], prs, line, i, WithField(results[k], line, value));
      results[k] := WithField(results[k], line, value);
    } else {
      FillNothing(results[..], prs, line, i);
    }
  }

  /** The body of GetAlligator's loop for bar i: the bar's median price,
      then the jaw, teeth and lips blocks in turn. */
  method AddBar(quotes: seq<Quote>, results: array<AlligatorResult>, pr: array<real>, ghost prs: seq<real>, i: nat)
    requires prs == MedianPrices(quotes)
    requires results.Length == pr.Length == |quotes| && i < |quotes|
    requires pr[..i] == prs[..i]
    requires FilledUpTo(results[..], prs, Jaw, i)
    requires FilledUpTo(results[..], prs, Teeth, i)
    requires FilledUpTo(results[..], prs, Lips, i)
    modifies results, pr
    ensures pr[..i + 1] == prs[..i + 1]
    ensures forall k :: 0 <= k < results.Length ==> results[k].date == old(results[k].date)
    ensures FilledUpTo(results[..], prs, Jaw, i + 1)
    ensures FilledUpTo(results[..], prs, Teeth, i + 1)
    ensures FilledUpTo(results[..], prs, Lips, i + 1)
  {
    var q := quotes[i];
    pr[i] := (q.high + q.low) / 2.0;
    assert pr[..i + 1] == prs[..i + 1];
    SmoothLine(results, pr, prs, i, Jaw);
    SmoothLine(results, pr, prs, i, Teeth);
    SmoothLine(results, pr, prs, i, Lips);
  }

  /** GetAlligator over quotes already in date order. */
  method GetAlligator(quotes: seq<Quote>) returns (r: Result<seq<AlligatorResult>>)
    ensures r.Failure? <==> |quotes| < MinHistory
    ensures r.Failure? ==> r.error == BadQuotes
    ensures r.Success? ==>
      var pr := MedianPrices(quotes);
      && |r.value| == |quotes|
      && forall k :: 0 <= k < |quotes| ==>
           && r.value[k].date == quotes[k].date
           && r.value[k].jaw == LineAt(pr, JawLookback, JawOffset, k)
           && r.value[k].teeth == LineAt(pr, TeethLookback, TeethOffset, k)
           && r.value[k].lips == LineAt(pr, LipsLookback, LipsOffset, k)
  {
    var invalid := ValidateAlligator(quotes);
    if invalid.Some? {
      return Failure(invalid.value);
    }
    var size := |quotes|;
    ghost var prs := MedianPrices(quotes);
    var pr := new real[size];
    var results := new AlligatorResult[size](k requires 0 <= k < size => AlligatorResult(quotes[k].date, None, None, None));

    for i := 0 to size
      invariant pr[..i] == prs[..i]
      invariant forall k :: 0 <= k < size ==> results[k].date == quotes[k].date
      invariant FilledUpTo(results[..], prs, Jaw, i)
      invariant FilledUpTo(results[..], prs, Teeth, i)
      invariant FilledUpTo(results[..], prs, Lips, i)
    {
      AddBar(quotes, results, pr, prs, i);
    }
    return Success(results[..]);
  }
}
