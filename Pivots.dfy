/** Pivots: trend labels between successive Williams fractal points. Each new
    high (low) fractal point is compared with the previous one, if that one is
    at most maxTrendPeriods bars old, and every row after the previous point up
    to the new one is labelled higher-high / lower-high (higher-low / lower-low). */
module Pivots {
  import opened Common

  datatype PivotTrend = HH | LH | HL | LL

  /** One row of the fractal series the trend loop consumes: FractalBear is
      a high point, FractalBull a low point. */
  datatype FractalResult = FractalResult(date: int, fractalBear: Option<real>, fractalBull: Option<real>)

  datatype PivotsResult = PivotsResult(
    date: int,
    highPoint: Option<real>,
    lowPoint: Option<real>,
    highTrend: Option<PivotTrend>,
    lowTrend: Option<PivotTrend>)

  /** The two polarities the loop treats alike: highs label HighTrend with
      HH/LH, lows label LowTrend with HL/LL. */
  datatype Side = High | Low {
    function Higher(): PivotTrend
    {
      if this == High then HH else HL
    }

    function Lower(): PivotTrend
    {
      if this == High then LH else LL
    }

    function Other(): Side
    {
      if this == High then Low else High
    }
  }

  function Point(r: PivotsResult, side: Side): Option<real>
  {
    if side == High then r.highPoint else r.lowPoint
  }

  function Trend(r: PivotsResult, side: Side): Option<PivotTrend>
  {
    if side == High then r.highTrend else r.lowTrend
  }

  /** `r` with the trend of `side` set to `v`; everything else is kept. */
  function WithTrend(r: PivotsResult, side: Side, v: PivotTrend): (r': PivotsResult)
    ensures Trend(r', side) == Some(v)
    ensures Trend(r', side.Other()) == Trend(r, side.Other())
    ensures r'.date == r.date && r'.highPoint == r.highPoint && r'.lowPoint == r.lowPoint
  {
    if side == High then r.(highTrend := Some(v)) else r.(lowTrend := Some(v))
  }

  /** The fractal points of one polarity, row by row. */
  function Points(fractals: seq<FractalResult>, side: Side): (points: seq<Option<real>>)
    ensures |points| == |fractals|
    ensures forall k {:trigger points[k]} :: 0 <= k < |fractals| ==>
      points[k] == if side == High then fractals[k].fractalBear else fractals[k].fractalBull
  {
    seq(|fractals|, k requires 0 <= k < |fractals| =>
      if side == High then fractals[k].fractalBear else fractals[k].fractalBull)
  }

  /** ValidatePivots, checked in the source's order; `qtyHistory` is the
      number of quotes (one fractal row per quote). */
  function ValidatePivots(qtyHistory: int, leftSpan: int, rightSpan: int, maxTrendPeriods: int): (r: Option<Error>)
    ensures r == Some(ArgumentOutOfRange("rightSpan")) <==> rightSpan < 2
    ensures r == Some(ArgumentOutOfRange("leftSpan")) <==>
      rightSpan >= 2 && (leftSpan < 2 || maxTrendPeriods <= leftSpan)
    ensures r == Some(BadQuotes) <==>
      rightSpan >= 2 && 2 <= leftSpan < maxTrendPeriods && qtyHistory < leftSpan + rightSpan + 1
    ensures r == None <==>
      rightSpan >= 2 && 2 <= leftSpan < maxTrendPeriods && qtyHistory >= leftSpan + rightSpan + 1
  {
    if rightSpan < 2 then Some(ArgumentOutOfRange("rightSpan"))
    else if leftSpan < 2 then Some(ArgumentOutOfRange("leftSpan"))
    // the source names leftSpan here although the bound is on maxTrendPeriods
    else if maxTrendPeriods <= leftSpan then Some(ArgumentOutOfRange("leftSpan"))
    else if qtyHistory < leftSpan + rightSpan + 1 then Some(BadQuotes)
    else None
  }

  /** The first row in [s, hi) holding a point, if any. */
  function NextPointAt(points: seq<Option<real>>, s: int, hi: int): (r: Option<int>)
    requires 0 <= s && hi <= |points|
    ensures r.Some? ==>
      && s <= r.value < hi
      && points[r.value].Some?
      && forall k :: s <= k < r.value ==> points[k].None?
    ensures r.None? ==> forall k :: s <= k < hi ==> points[k].None?
    decreases hi - s
  {
    if s >= hi then None
    else if points[s].Some? then Some(s)
    else NextPointAt(points, s + 1, hi)
  }

  /** The last row in [lo, i) holding a point, if any: the reference the
      loop holds when it reaches row i, before expiry. */
  function PrevPoint(points: seq<Option<real>>, lo: int, i: int): (r: Option<int>)
    requires 0 <= lo && i <= |points|
    ensures r.Some? ==>
      && lo <= r.value < i
      && points[r.value].Some?
      && forall k :: r.value < k < i ==> points[k].None?
    ensures r.None? ==> forall k :: lo <= k < i ==> points[k].None?
    decreases i
  {
    if i <= lo then None
    else if points[i - 1].Some? then Some(i - 1)
    else PrevPoint(points, lo, i - 1)
  }

  /** A reference at row `ref` is dropped once it is older than maxTrendPeriods. */
  function Live(ref: Option<int>, i: int, maxTrendPeriods: int): (r: Option<int>)
    ensures r.Some? <==> ref.Some? && ref.value >= i - maxTrendPeriods
    ensures r.Some? ==> r == ref
  {
    if ref.Some? && ref.value < i - maxTrendPeriods then None else ref
  }

  /** The label a point of value v at row i gives against a reference of
      value refValue at row j: none if the reference has expired or the
      values tie. */
  function Label(refValue: real, v: real, j: int, i: int, maxTrendPeriods: int, side: Side): (r: Option<PivotTrend>)
    ensures r.None? <==> j < i - maxTrendPeriods || v == refValue
    ensures r == Some(side.Higher()) <==> j >= i - maxTrendPeriods && v > refValue
    ensures r == Some(side.Lower()) <==> j >= i - maxTrendPeriods && v < refValue
  {
    if j < i - maxTrendPeriods || v == refValue then None
    else Some(if v > refValue then side.Higher() else side.Lower())
  }

  /** The trend label of row t when the loop runs over rows [lo, hi): the
      first point at or after t (and not before lo) is compared with the
      point before it. */
  function TrendAt(points: seq<Option<real>>, lo: int, hi: int, maxTrendPeriods: int, t: int, side: Side): Option<PivotTrend>
    requires 0 <= lo && hi <= |points|
  {
    match NextPointAt(points, if t < lo then lo else t, hi)
    case None => None
    case Some(i) =>
      match PrevPoint(points, lo, i)
      case None => None
      case Some(j) => Label(points[j].value, points[i].value, j, i, maxTrendPeriods, side)
  }

  /** A row whose next point is at or past hi, or that has no point of its
      polarity before it since lo, keeps a null trend. */
  lemma UnsettledRowIsNull(points: seq<Option<real>>, lo: int, i: int, maxTrendPeriods: int, t: int, side: Side)
    requires 0 <= lo <= i <= |points|
    requires PrevPoint(points, lo, i).None? || PrevPoint(points, lo, i).value < t
    ensures TrendAt(points, lo, i, maxTrendPeriods, t, side) == None
  {
    var next := NextPointAt(points, if t < lo then lo else t, i);
  }

  /** What processing row i does to the labels: a point at i labels the
      rows after the previous point up to i, and nothing else changes. */
  lemma StepTrendAt(points: seq<Option<real>>, lo: int, i: int, maxTrendPeriods: int, t: int, side: Side)
    requires 0 <= lo <= i < |points|
    ensures TrendAt(points, lo, i + 1, maxTrendPeriods, t, side) ==
      var j := PrevPoint(points, lo, i);
      if points[i].Some? && j.Some? && j.value < t <= i
      then Label(points[j.value].value, points[i].value, j.value, i, maxTrendPeriods, side)
      else TrendAt(points, lo, i, maxTrendPeriods, t, side)
  {
    var s := if t < lo then lo else t;
    var j := PrevPoint(points, lo, i);
    var before := NextPointAt(points, s, i);
    var after := NextPointAt(points, s, i + 1);
    if before.Some? {
      assert after == before;
    } else if s <= i && points[i].Some? {
      assert after == Some(i);
    } else {
      assert after.None?;
    }
  }

  /** A null reference never labels: before the first point since lo, every
      row up to and including that point keeps a null trend. */
  lemma NoReferenceNoLabel(points: seq<Option<real>>, lo: int, hi: int, maxTrendPeriods: int, i: int, t: int, side: Side)
    requires 0 <= lo <= i < hi <= |points|
    requires forall k :: lo <= k < i ==> points[k].None?
    requires t <= i
    ensures TrendAt(points, lo, hi, maxTrendPeriods, t, side) == None
  {
    var next := NextPointAt(points, if t < lo then lo else t, hi);
    if next.Some? {
      assert PrevPoint(points, lo, next.value).None?;
    }
  }

  /** Labels only ever appear on rows lo + 1 .. hi - 1. */
  lemma LabelsInsideLoopRange(points: seq<Option<real>>, lo: int, hi: int, maxTrendPeriods: int, t: int, side: Side)
    requires 0 <= lo && hi <= |points|
    requires TrendAt(points, lo, hi, maxTrendPeriods, t, side).Some?
    ensures lo + 1 <= t <= hi - 1
  {
    var i := NextPointAt(points, if t < lo then lo else t, hi).value;
    var j := PrevPoint(points, lo, i).value;
    assert lo <= j < i;
  }

  /** Two successive points j < i of one polarity, with no point between. */
  ghost predicate Successive(points: seq<Option<real>>, j: int, i: int)
    requires 0 <= j < i < |points|
  {
    points[j].Some? && points[i].Some? && forall k :: j < k < i ==> points[k].None?
  }

  /** The rows after point j up to point i all carry the label of i against j. */
  lemma SegmentLabel(points: seq<Option<real>>, lo: int, hi: int, maxTrendPeriods: int, j: int, i: int, t: int, side: Side)
    requires 0 <= lo <= j < t <= i < hi <= |points|
    requires Successive(points, j, i)
    ensures TrendAt(points, lo, hi, maxTrendPeriods, t, side) ==
      Label(points[j].value, points[i].value, j, i, maxTrendPeriods, side)
  {
    assert NextPointAt(points, t, hi) == Some(i);
    assert PrevPoint(points, lo, i) == Some(j);
  }

  /** A new point that differs from a live reference labels the rows after
      the reference, up to itself, HH/HL when higher and LH/LL when lower. */
  lemma RepaintLabelsSegment(points: seq<Option<real>>, lo: int, hi: int, maxTrendPeriods: int, j: int, i: int, t: int, side: Side)
    requires 0 <= lo <= j < t <= i < hi <= |points|
    requires Successive(points, j, i)
    requires j >= i - maxTrendPeriods && points[i] != points[j]
    ensures TrendAt(points, lo, hi, maxTrendPeriods, t, side) ==
      Some(if points[i].value > points[j].value then side.Higher() else side.Lower())
  {
    SegmentLabel(points, lo, hi, maxTrendPeriods, j, i, t, side);
  }

  /** A reference older than maxTrendPeriods labels nothing. */
  lemma ExpiredReferenceLabelsNothing(points: seq<Option<real>>, lo: int, hi: int, maxTrendPeriods: int, j: int, i: int, t: int, side: Side)
    requires 0 <= lo <= j < t <= i < hi <= |points|
    requires Successive(points, j, i)
    requires j < i - maxTrendPeriods
    ensures TrendAt(points, lo, hi, maxTrendPeriods, t, side) == None
  {
    SegmentLabel(points, lo, hi, maxTrendPeriods, j, i, t, side);
  }

  /** A point equal to its reference labels nothing, yet it becomes the
      reference: the rows after it are compared with it, not with the older
      point it tied with. */
  lemma TieMovesReference(points: seq<Option<real>>, lo: int, hi: int, maxTrendPeriods: int, j: int, i: int, k: int, side: Side)
    requires 0 <= lo <= j < i < k < hi <= |points|
    requires Successive(points, j, i) && Successive(points, i, k)
    requires points[i] == points[j]
    ensures forall t :: j < t <= i ==> TrendAt(points, lo, hi, maxTrendPeriods, t, side) == None
    ensures forall t :: i < t <= k ==>
      TrendAt(points, lo, hi, maxTrendPeriods, t, side) == Label(points[i].value, points[k].value, i, k, maxTrendPeriods, side)
  {
    forall t | j < t <= i
      ensures TrendAt(points, lo, hi, maxTrendPeriods, t, side) == None
    {
      SegmentLabel(points, lo, hi, maxTrendPeriods, j, i, t, side);
    }
    forall t | i < t <= k
      ensures TrendAt(points, lo, hi, maxTrendPeriods, t, side) ==
        Label(points[i].value, points[k].value, i, k, maxTrendPeriods, side)
    {
      SegmentLabel(points, lo, hi, maxTrendPeriods, i, k, t, side);
    }
  }

  /** The trend column of one polarity. */
  function Trends(rows: seq<PivotsResult>, side: Side): (col: seq<Option<PivotTrend>>)
    ensures |col| == |rows|
    ensures forall k :: 0 <= k < |rows| ==> col[k] == Trend(rows[k], side)
  {
    seq(|rows|, k requires 0 <= k < |rows| => Trend(rows[k], side))
  }

  /** After the loop has processed rows [lo, i), every cell of a trend
      column holds its label as if the series ended at row i. */
  ghost predicate TrendsFilled(col: seq<Option<PivotTrend>>, points: seq<Option<real>>, side: Side, lo: int, i: int, maxTrendPeriods: int)
    requires 0 <= lo <= i <= |points| == |col|
  {
    forall t :: 0 <= t < |col| ==> col[t] == TrendAt(points, lo, i, maxTrendPeriods, t, side)
  }

  /** The trend column GetPivots leaves for one polarity when its loop runs
      over rows [lo, hi). */
  ghost function ExpectedTrends(points: seq<Option<real>>, lo: int, hi: int, maxTrendPeriods: int, side: Side): (col: seq<Option<PivotTrend>>)
    requires 0 <= lo && hi <= |points|
    ensures |col| == |points|
    ensures forall t :: 0 <= t < |points| ==> col[t] == TrendAt(points, lo, hi, maxTrendPeriods, t, side)
  {
    seq(|points|, t requires 0 <= t < |points| => TrendAt(points, lo, hi, maxTrendPeriods, t, side))
  }

  /** `col` with the rows after `from` up to `to` set to `trend`. */
  function Repainted(col: seq<Option<PivotTrend>>, from: int, to: int, trend: PivotTrend): (r: seq<Option<PivotTrend>>)
    ensures |r| == |col|
    ensures forall k :: 0 <= k < |col| ==> r[k] == if from < k <= to then Some(trend) else col[k]
  {
    seq(|col|, k requires 0 <= k < |col| => if from < k <= to then Some(trend) else col[k])
  }

  /** A point at row i that differs from its live reference at row j labels
      rows j + 1 .. i, all of which were still null, and leaves the column
      filled up to row i + 1. */
  lemma RepaintAdvancesFill(col: seq<Option<PivotTrend>>, points: seq<Option<real>>, side: Side, lo: int, i: int, maxTrendPeriods: int)
    requires 0 <= lo <= i < |points| == |col| && maxTrendPeriods >= 0
    requires TrendsFilled(col, points, side, lo, i, maxTrendPeriods)
    requires points[i].Some?
    requires Live(PrevPoint(points, lo, i), i, maxTrendPeriods).Some?
    requires points[i] != points[PrevPoint(points, lo, i).value]
    ensures var j := PrevPoint(points, lo, i).value;
      && (forall k :: j < k <= i ==> col[k] == None)
      && TrendsFilled(Repainted(col, j, i, if points[i].value > points[j].value then side.Higher() else side.Lower()),
                      points, side, lo, i + 1, maxTrendPeriods)
  {
    var j := PrevPoint(points, lo, i).value;
    var painted := Repainted(col, j, i, if points[i].value > points[j].value then side.Higher() else side.Lower());
    forall t | 0 <= t < |col|
      ensures j < t <= i ==> col[t] == None
      ensures painted[t] == TrendAt(points, lo, i + 1, maxTrendPeriods, t, side)
    {
      StepTrendAt(points, lo, i, maxTrendPeriods, t, side);
      if j < t {
        UnsettledRowIsNull(points, lo, i, maxTrendPeriods, t, side);
      }
    }
  }

  /** Without a point at row i, or when the point ties with or has no live
      reference, the column is already filled up to row i + 1. */
  lemma NoRepaintAdvancesFill(col: seq<Option<PivotTrend>>, points: seq<Option<real>>, side: Side, lo: int, i: int, maxTrendPeriods: int)
    requires 0 <= lo <= i < |points| == |col| && maxTrendPeriods >= 0
    requires TrendsFilled(col, points, side, lo, i, maxTrendPeriods)
    requires var ref := Live(PrevPoint(points, lo, i), i, maxTrendPeriods);
      points[i].None? || ref.None? || points[i] == points[ref.value]
    ensures TrendsFilled(col, points, side, lo, i + 1, maxTrendPeriods)
  {
    var j := PrevPoint(points, lo, i);
    forall t | 0 <= t < |col|
      ensures col[t] == TrendAt(points, lo, i + 1, maxTrendPeriods, t, side)
    {
      StepTrendAt(points, lo, i, maxTrendPeriods, t, side);
      if j.Some? && j.value < t {
        UnsettledRowIsNull(points, lo, i, maxTrendPeriods, t, side);
      }
    }
  }

  /** The reference the loop holds for one polarity on reaching row i:
      the last point since lo, unless it expired at row i - 1. */
  ghost predicate HeldReference(points: seq<Option<real>>, lo: int, i: int, maxTrendPeriods: int,
                                lastIndex: Option<int>, lastValue: Option<real>)
    requires 0 <= lo && i <= |points|
  {
    && lastIndex == Live(PrevPoint(points, lo, i), i - 1, maxTrendPeriods)
    && (lastIndex.Some? ==> lastValue == points[lastIndex.value])
  }

  /** Once the loop has reached its end bound, the column is the expected one. */
  lemma FilledAtEnd(col: seq<Option<PivotTrend>>, points: seq<Option<real>>, side: Side, lo: int, i: int, hi: int, maxTrendPeriods: int)
    requires 0 <= lo <= i <= |points| == |col| && i == hi
    requires TrendsFilled(col, points, side, lo, i, maxTrendPeriods)
    ensures col == ExpectedTrends(points, lo, hi, maxTrendPeriods, side)
  {
    var expected := ExpectedTrends(points, lo, hi, maxTrendPeriods, side);
    assert forall t :: 0 <= t < |col| ==> col[t] == expected[t];
  }

  /** The inner repaint loop: rows from + 1 .. to get `trend` in the column
      of `side`; nothing else changes. */
  method Repaint(results: array<PivotsResult>, from: int, to: int, side: Side, trend: PivotTrend)
    requires 0 <= from < to < results.Length
    modifies results
    ensures Trends(results[..], side) == Repainted(Trends(old(results[..]), side), from, to, trend)
    ensures Trends(results[..], side.Other()) == Trends(old(results[..]), side.Other())
    ensures forall k :: 0 <= k < results.Length ==>
      && results[k].date == old(results[k].date)
      && results[k].highPoint == old(results[k].highPoint)
      && results[k].lowPoint == old(results[k].lowPoint)
  {
    for t := from + 1 to to + 1
      invariant forall k :: 0 <= k < results.Length ==>
        results[k] == if from < k < t then WithTrend(old(results[k]), side, trend) else old(results[k])
    {
      results[t] := WithTrend(results[t], side, trend);
    }
  }

  /** The high (or low) block of the loop body for row i: a point that
      differs from the live reference repaints the rows after the reference
      up to i; any point becomes the new reference. `next` is i + 1. */
  method EvaluateTrend(results: array<PivotsResult>, ghost points: seq<Option<real>>, i: int, ghost next: int,
                       lastIndex: Option<int>, lastValue: Option<real>, side: Side,
                       ghost lo: int, ghost maxTrendPeriods: int)
    returns (newIndex: Option<int>, newValue: Option<real>)
    requires |points| == results.Length
    requires forall k :: 0 <= k < results.Length ==> Point(results[k], side) == points[k]
    requires 0 <= lo <= i < |points| && maxTrendPeriods >= 0 && next == i + 1
    requires lastIndex == Live(PrevPoint(points, lo, i), i, maxTrendPeriods)
    requires lastIndex.Some? ==> lastValue == points[lastIndex.value]
    requires TrendsFilled(Trends(results[..], side), points, side, lo, i, maxTrendPeriods)
    modifies results
    ensures HeldReference(points, lo, next, maxTrendPeriods, newIndex, newValue)
    ensures TrendsFilled(Trends(results[..], side), points, side, lo, next, maxTrendPeriods)
    ensures Trends(results[..], side.Other()) == Trends(old(results[..]), side.Other())
    ensures forall k :: 0 <= k < results.Length ==>
      && results[k].date == old(results[k].date)
      && results[k].highPoint == old(results[k].highPoint)
      && results[k].lowPoint == old(results[k].lowPoint)
    // a trend cell is only ever written while it is still null
    ensures forall k :: 0 <= k < results.Length && Trend(results[k], side) != Trend(old(results[k]), side) ==>
      Trend(old(results[k]), side) == None
  {
    ghost var before := Trends(results[..], side);
    newIndex, newValue := lastIndex, lastValue;
    var point := Point(results[i], side);
    if point.Some? {
      // repaint trend
      if lastIndex.Some? && point != lastValue {
        var trend := if point.value > lastValue.value then side.Higher() else side.Lower();
        RepaintAdvancesFill(before, points, side, lo, i, maxTrendPeriods);
        Repaint(results, lastIndex.value, i, side, trend);
      } else {
        NoRepaintAdvancesFill(before, points, side, lo, i, maxTrendPeriods);
      }
      // reset starting position
      newIndex, newValue := Some(i), point;
    } else {
      NoRepaintAdvancesFill(before, points, side, lo, i, maxTrendPeriods);
    }
  }

  /** The main loop of GetPivots over rows leftSpan .. hi - 1, each
      polarity keeping its own nullable reference. */
  method RollThrough(results: array<PivotsResult>, ghost highs: seq<Option<real>>, ghost lows: seq<Option<real>>,
                     leftSpan: int, hi: int, maxTrendPeriods: int)
    requires 0 <= leftSpan <= hi <= results.Length == |highs| == |lows| && maxTrendPeriods >= 0
    requires forall k :: 0 <= k < results.Length ==> results[k].highPoint == highs[k] && results[k].lowPoint == lows[k]
    requires forall k :: 0 <= k < results.Length ==> results[k].highTrend == None && results[k].lowTrend == None
    modifies results
    ensures forall k :: 0 <= k < results.Length ==>
      && results[k].date == old(results[k].date)
      && results[k].highPoint == old(results[k].highPoint)
      && results[k].lowPoint == old(results[k].lowPoint)
    ensures Trends(results[..], High) == ExpectedTrends(highs, leftSpan, hi, maxTrendPeriods, High)
    ensures Trends(results[..], Low) == ExpectedTrends(lows, leftSpan, hi, maxTrendPeriods, Low)
  {
    forall t | 0 <= t < results.Length
      ensures Trends(results[..], High)[t] == TrendAt(highs, leftSpan, leftSpan, maxTrendPeriods, t, High)
      ensures Trends(results[..], Low)[t] == TrendAt(lows, leftSpan, leftSpan, maxTrendPeriods, t, Low)
    {
      UnsettledRowIsNull(highs, leftSpan, leftSpan, maxTrendPeriods, t, High);
      UnsettledRowIsNull(lows, leftSpan, leftSpan, maxTrendPeriods, t, Low);
    }

    var lastHighIndex: Option<int> := None;
    var lastHighValue: Option<real> := None;
    var lastLowIndex: Option<int> := None;
    var lastLowValue: Option<real> := None;

    // roll through results
    var i := leftSpan;
    while i < hi
      invariant leftSpan <= i <= hi
      invariant forall k :: 0 <= k < results.Length ==>
        && results[k].date == old(results[k].date)
        && results[k].highPoint == old(results[k].highPoint)
        && results[k].lowPoint == old(results[k].lowPoint)
      invariant HeldReference(highs, leftSpan, i, maxTrendPeriods, lastHighIndex, lastHighValue)
      invariant HeldReference(lows, leftSpan, i, maxTrendPeriods, lastLowIndex, lastLowValue)
      invariant TrendsFilled(Trends(results[..], High), highs, High, leftSpan, i, maxTrendPeriods)
      invariant TrendsFilled(Trends(results[..], Low), lows, Low, leftSpan, i, maxTrendPeriods)
    {
      // reset expired indexes
      if lastHighIndex.Some? && lastHighIndex.value < i - maxTrendPeriods {
        lastHighIndex := None;
        lastHighValue := None;
      }

      if lastLowIndex.Some? && lastLowIndex.value < i - maxTrendPeriods {
        lastLowIndex := None;
        lastLowValue := None;
      }

      var next := i + 1;

      // evaluate high trend
      lastHighIndex, lastHighValue :=
        EvaluateTrend(results, highs, i, next, lastHighIndex, lastHighValue, High, leftSpan, maxTrendPeriods);

      // evaluate low trend
      lastLowIndex, lastLowValue :=
        EvaluateTrend(results, lows, i, next, lastLowIndex, lastLowValue, Low, leftSpan, maxTrendPeriods);

      i := next;
    }
    FilledAtEnd(Trends(results[..], High), highs, High, leftSpan, i, hi, maxTrendPeriods);
    FilledAtEnd(Trends(results[..], Low), lows, Low, leftSpan, i, hi, maxTrendPeriods);
  }

  /** What GetPivots returns for valid arguments: one row per fractal in
      the same order, holding its date and both points, with the trend
      columns the loop over rows [leftSpan, hi) leaves behind. */
  ghost predicate PivotRows(fractals: seq<FractalResult>, leftSpan: int, hi: int, maxTrendPeriods: int,
                            rows: seq<PivotsResult>)
    requires 0 <= leftSpan && hi <= |fractals|
  {
    && |rows| == |fractals|
    && (forall k {:trigger rows[k]} :: 0 <= k < |fractals| ==>
          && rows[k].date == fractals[k].date
          && rows[k].highPoint == fractals[k].fractalBear
          && rows[k].lowPoint == fractals[k].fractalBull)
    && Trends(rows, High) == ExpectedTrends(Points(fractals, High), leftSpan, hi, maxTrendPeriods, High)
    && Trends(rows, Low) == ExpectedTrends(Points(fractals, Low), leftSpan, hi, maxTrendPeriods, Low)
  }

  /** GetPivots over the fractal series of the quotes (one row per quote). */
  method GetPivots(fractals: seq<FractalResult>, leftSpan: int, rightSpan: int, maxTrendPeriods: int)
    returns (r: Result<seq<PivotsResult>>)
    ensures r.Failure? <==> ValidatePivots(|fractals|, leftSpan, rightSpan, maxTrendPeriods).Some?
    ensures r.Failure? ==> Some(r.error) == ValidatePivots(|fractals|, leftSpan, rightSpan, maxTrendPeriods)
    ensures r.Success? ==>
      && 0 <= leftSpan <= |fractals| - rightSpan < |fractals|
      && PivotRows(fractals, leftSpan, |fractals| - rightSpan, maxTrendPeriods, r.value)
  {
    // check parameter arguments
    var invalid := ValidatePivots(|fractals|, leftSpan, rightSpan, maxTrendPeriods);
    if invalid.Some? {
      return Failure(invalid.value);
    }

    var rows := RunPivots(fractals, leftSpan, |fractals| - rightSpan, maxTrendPeriods);
    return Success(rows);
  }

  /** The body of GetPivots once its arguments are valid: one row per
      fractal holding its date and points, then the trend loop over
      rows [leftSpan, hi). */
  method RunPivots(fractals: seq<FractalResult>, leftSpan: int, hi: int, maxTrendPeriods: int)
    returns (rows: seq<PivotsResult>)
    requires 0 <= leftSpan <= hi <= |fractals| && maxTrendPeriods >= 0
    ensures PivotRows(fractals, leftSpan, hi, maxTrendPeriods, rows)
  {
    // initialize
    var n := |fractals|;
    var results := new PivotsResult[n](k requires 0 <= k < n =>
      PivotsResult(fractals[k].date, fractals[k].fractalBear, fractals[k].fractalBull, None, None));
    RollThrough(results, Points(fractals, High), Points(fractals, Low), leftSpan, hi, maxTrendPeriods);
    rows := results[..];
  }
}
