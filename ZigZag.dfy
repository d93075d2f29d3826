/** ZigZag: the reversal-detection engine. A probe over the bars finds the
    initial trend, then a scanner repeatedly follows a running extreme until
    price retraces from it by at least the threshold; each confirmed extreme
    becomes the next zig-zag point. A painter appends interpolated rows up
    to that point, and a second painter redraws the retrace line between the
    two latest points of the same polarity in rows already emitted. */
module ZigZag {
  import opened Common

  /** Which prices a bar contributes: its close only, or its high and low. */
  datatype ZigZagType = Close | HighLow

  /** The point types of the source's strings "U" (undetermined), "H", "L". */
  datatype PointType = U | H | L

  /** GetZigZag's view of one bar: its 1-based index and the prices used as
      its high and its low. */
  datatype ZigZagEval = ZigZagEval(index: int, high: real, low: real)

  /** One output row. */
  datatype ZigZagResult = ZigZagResult(
    date: int,
    zigzag: Option<real>,
    pointType: Option<PointType>,
    retraceHigh: Option<real>,
    retraceLow: Option<real>)

  /** The value of a ZigZagPoint object at one moment: 1-based bar index,
      price, and type (null once the last extreme is left unconfirmed). */
  datatype Point = Point(index: int, value: real, pointType: Option<PointType>)

  /** The bars the code divides by have positive prices. */
  predicate PositivePrices(quotes: seq<Quote>)
  {
    forall k :: 0 <= k < |quotes| ==> quotes[k].high > 0.0 && quotes[k].low > 0.0 && quotes[k].close > 0.0
  }

  /** GetZigZagEval: the index passes through; Close mode uses the close as
      both high and low, HighLow mode the bar's own high and low. */
  function GetZigZagEval(zigzagType: ZigZagType, index: int, q: Quote): (e: ZigZagEval)
    ensures e.index == index
    ensures zigzagType == Close ==> e.high == q.close && e.low == q.close
    ensures zigzagType == HighLow ==> e.high == q.high && e.low == q.low
  {
    match zigzagType
    case Close => ZigZagEval(index, q.close, q.close)
    case HighLow => ZigZagEval(index, q.high, q.low)
  }

  /** For a bar whose close lies within its range, either view stays inside
      that range, and the view's low never exceeds its high. */
  lemma EvalWithinBar(zigzagType: ZigZagType, index: int, q: Quote)
    requires q.low <= q.close <= q.high
    ensures var e := GetZigZagEval(zigzagType, index, q);
      q.low <= e.low <= e.high <= q.high
  {
  }

  /** The eval of bar `index` (1-based). */
  function EvalAt(quotes: seq<Quote>, zigzagType: ZigZagType, index: int): (e: ZigZagEval)
    requires 1 <= index <= |quotes|
    requires PositivePrices(quotes)
    ensures e.index == index && e.high > 0.0 && e.low > 0.0
  {
    GetZigZagEval(zigzagType, index, quotes[index - 1])
  }

  /** ValidateZigZag: a non-positive percent change is rejected first, then
      fewer than two quotes. */
  function ValidateZigZag(qtyHistory: int, percentChange: real): (r: Option<Error>)
    ensures r == Some(ArgumentOutOfRange("percentChange")) <==> percentChange <= 0.0
    ensures r == Some(BadHistory) <==> percentChange > 0.0 && qtyHistory < 2
    ensures r == None <==> percentChange > 0.0 && qtyHistory >= 2
  {
    if percentChange <= 0.0 then Some(ArgumentOutOfRange("percentChange"))
    else if qtyHistory < 2 then Some(BadHistory)
    else None
  }

  // ---------------------------------------------------------------------
  // Initial-trend probe

  /** The rise of bar `index` above the first bar's low, relative to it. */
  function ChangeUp(quotes: seq<Quote>, zigzagType: ZigZagType, index: int): real
    requires 1 <= index <= |quotes| && PositivePrices(quotes)
  {
    var first := EvalAt(quotes, zigzagType, 1);
    (EvalAt(quotes, zigzagType, index).high - first.low) / first.low
  }

  /** The fall of bar `index` below the first bar's high, relative to it. */
  function ChangeDn(quotes: seq<Quote>, zigzagType: ZigZagType, index: int): real
    requires 1 <= index <= |quotes| && PositivePrices(quotes)
  {
    var first := EvalAt(quotes, zigzagType, 1);
    (first.high - EvalAt(quotes, zigzagType, index).low) / first.high
  }

  /** Bar `index` shows an up-trend: the rise reaches the threshold and beats the fall. */
  predicate UpSignal(quotes: seq<Quote>, zigzagType: ZigZagType, threshold: real, index: int)
    requires 1 <= index <= |quotes| && PositivePrices(quotes)
  {
    ChangeUp(quotes, zigzagType, index) >= threshold
    && ChangeUp(quotes, zigzagType, index) > ChangeDn(quotes, zigzagType, index)
  }

  /** Bar `index` shows a down-trend. */
  predicate DownSignal(quotes: seq<Quote>, zigzagType: ZigZagType, threshold: real, index: int)
    requires 1 <= index <= |quotes| && PositivePrices(quotes)
  {
    ChangeDn(quotes, zigzagType, index) >= threshold
    && ChangeDn(quotes, zigzagType, index) > ChangeUp(quotes, zigzagType, index)
  }

  /** The point the probe loop settles on when it has checked bars 1..i
      without a signal. */
  function InitialPoint(quotes: seq<Quote>, zigzagType: ZigZagType, threshold: real, i: int): (p: Point)
    requires 1 <= |quotes| && 0 <= i <= |quotes| && PositivePrices(quotes)
    ensures p.index == 1 && p.value > 0.0
    decreases |quotes| - i
  {
    var first := EvalAt(quotes, zigzagType, 1);
    if i == |quotes| then Point(1, quotes[0].close, Some(U))
    else if UpSignal(quotes, zigzagType, threshold, i + 1) then Point(1, first.low, Some(L))
    else if DownSignal(quotes, zigzagType, threshold, i + 1) then Point(1, first.high, Some(H))
    else InitialPoint(quotes, zigzagType, threshold, i + 1)
  }

  /** No bar in (i, j] shows either signal. */
  predicate Quiet(quotes: seq<Quote>, zigzagType: ZigZagType, threshold: real, i: int, j: int)
    requires 0 <= i && j <= |quotes| && PositivePrices(quotes)
  {
    forall k :: i < k <= j ==>
      !UpSignal(quotes, zigzagType, threshold, k) && !DownSignal(quotes, zigzagType, threshold, k)
  }

  /** The probe stops at the first bar k with a signal: the first bar's low
      tagged L if that signal is an up-trend, the first bar's high tagged H
      if it is a down-trend. The point stays at index 1 either way. */
  lemma {:induction false} InitialPointAtFirstSignal(quotes: seq<Quote>, zigzagType: ZigZagType, threshold: real, i: int, k: int)
    requires 1 <= |quotes| && 0 <= i < k <= |quotes| && PositivePrices(quotes)
    requires Quiet(quotes, zigzagType, threshold, i, k - 1)
    requires UpSignal(quotes, zigzagType, threshold, k) || DownSignal(quotes, zigzagType, threshold, k)
    ensures var first := EvalAt(quotes, zigzagType, 1);
      InitialPoint(quotes, zigzagType, threshold, i) ==
        if UpSignal(quotes, zigzagType, threshold, k) then Point(1, first.low, Some(L)) else Point(1, first.high, Some(H))
    decreases k - i
  {
    if i + 1 < k {
      InitialPointAtFirstSignal(quotes, zigzagType, threshold, i + 1, k);
    }
  }

  /** When no bar signals, the probe leaves the first close tagged U. */
  lemma {:induction false} InitialPointWithoutSignal(quotes: seq<Quote>, zigzagType: ZigZagType, threshold: real, i: int)
    requires 1 <= |quotes| && 0 <= i <= |quotes| && PositivePrices(quotes)
    requires Quiet(quotes, zigzagType, threshold, i, |quotes|)
    ensures InitialPoint(quotes, zigzagType, threshold, i) == Point(1, quotes[0].close, Some(U))
    decreases |quotes| - i
  {
    if i < |quotes| {
      InitialPointWithoutSignal(quotes, zigzagType, threshold, i + 1);
    }
  }

  // ---------------------------------------------------------------------
  // Forward scanner

  /** The scanner's state after it has read bars up to `m`: the running
      extreme's index and value, and the last retracement it computed. */
  datatype Scan = Scan(index: int, value: real, change: real)

  /** One bar of the scan. Scanning up, a bar whose high reaches the
      extreme moves it there; otherwise the bar's retracement below the
      extreme becomes the change. Scanning down is the mirror image on
      lows. */
  function StepScan(prev: Scan, e: ZigZagEval, up: bool): (s: Scan)
    requires prev.value > 0.0 && e.high > 0.0 && e.low > 0.0
    ensures s.value > 0.0
  {
    if up then
      if e.high >= prev.value then Scan(e.index, e.high, prev.change)
      else Scan(prev.index, prev.value, (prev.value - e.low) / prev.value)
    else
      if e.low <= prev.value then Scan(e.index, e.low, prev.change)
      else Scan(prev.index, prev.value, (e.high - prev.value) / prev.value)
  }

  /** The running extreme of EvaluateNextPoint after reading bars
      start + 1 .. m, with the last change it computed. */
  function ScanTo(quotes: seq<Quote>, zigzagType: ZigZagType, up: bool, start: Point, m: int): (s: Scan)
    requires PositivePrices(quotes) && 1 <= start.index <= m <= |quotes| && start.value > 0.0
    ensures start.index <= s.index <= m && s.value > 0.0
    decreases m
  {
    if m == start.index then Scan(start.index, start.value, 0.0)
    else StepScan(ScanTo(quotes, zigzagType, up, start, m - 1), EvalAt(quotes, zigzagType, m), up)
  }

  /** The type EvaluateNextPoint gives its extreme: H when scanning up. */
  function Direction(up: bool): PointType
  {
    if up then H else L
  }

  /** What EvaluateNextPoint returns once it has read bars up to `m`
      without the retracement reaching the threshold. */
  function NextPointFrom(quotes: seq<Quote>, zigzagType: ZigZagType, threshold: real, up: bool, start: Point, m: int): (p: Point)
    requires PositivePrices(quotes) && 1 <= start.index <= m <= |quotes| && start.value > 0.0
    ensures start.index <= p.index <= |quotes| && p.value > 0.0
    decreases |quotes| - m
  {
    if m == |quotes| then
      var s := ScanTo(quotes, zigzagType, up, start, m);
      Point(s.index, s.value, if s.index == |quotes| && s.change < threshold then None else Some(Direction(up)))
    else
      var s := ScanTo(quotes, zigzagType, up, start, m + 1);
      if s.change >= threshold then Point(s.index, s.value, Some(Direction(up)))
      else NextPointFrom(quotes, zigzagType, threshold, up, start, m + 1)
  }

  /** EvaluateNextPoint from the last point: scan up after a low, down otherwise. */
  function NextPoint(quotes: seq<Quote>, zigzagType: ZigZagType, threshold: real, last: Point): (p: Point)
    requires PositivePrices(quotes) && 1 <= last.index <= |quotes| && last.value > 0.0
    ensures last.index <= p.index <= |quotes| && p.value > 0.0
  {
    NextPointFrom(quotes, zigzagType, threshold, last.pointType == Some(L), last, last.index)
  }

  /** The extreme moves only forward, and only in the scan's direction:
      higher when scanning up, lower when scanning down. */
  lemma {:induction false} ScanMonotone(quotes: seq<Quote>, zigzagType: ZigZagType, up: bool, start: Point, m1: int, m2: int)
    requires PositivePrices(quotes) && 1 <= start.index <= m1 <= m2 <= |quotes| && start.value > 0.0
    ensures ScanTo(quotes, zigzagType, up, start, m1).index <= ScanTo(quotes, zigzagType, up, start, m2).index
    ensures up ==> ScanTo(quotes, zigzagType, up, start, m1).value <= ScanTo(quotes, zigzagType, up, start, m2).value
    ensures !up ==> ScanTo(quotes, zigzagType, up, start, m1).value >= ScanTo(quotes, zigzagType, up, start, m2).value
    decreases m2
  {
    if m2 > m1 {
      ScanMonotone(quotes, zigzagType, up, start, m1, m2 - 1);
    }
  }

  /** The extreme after bars start + 1 .. m is the highest high (scanning
      up) or lowest low (scanning down) among the start value and those
      bars, at the latest bar that attains it. */
  lemma {:induction false} ScanIsRunningExtreme(quotes: seq<Quote>, zigzagType: ZigZagType, up: bool, start: Point, m: int)
    requires PositivePrices(quotes) && 1 <= start.index <= m <= |quotes| && start.value > 0.0
    ensures var s := ScanTo(quotes, zigzagType, up, start, m);
      && (up ==> start.value <= s.value)
      && (!up ==> s.value <= start.value)
      && (forall k :: start.index < k <= m ==>
            if up then EvalAt(quotes, zigzagType, k).high <= s.value
            else s.value <= EvalAt(quotes, zigzagType, k).low)
      && (forall k :: s.index < k <= m ==>
            if up then EvalAt(quotes, zigzagType, k).high < s.value
            else s.value < EvalAt(quotes, zigzagType, k).low)
      && (s.index == start.index ==> s.value == start.value)
      && (s.index > start.index ==>
            s.value == if up then EvalAt(quotes, zigzagType, s.index).high else EvalAt(quotes, zigzagType, s.index).low)
    decreases m
  {
    if m > start.index {
      ScanIsRunningExtreme(quotes, zigzagType, up, start, m - 1);
    }
  }

  /** The scanner's `change` has reached the threshold after bar m. */
  predicate Confirmed(quotes: seq<Quote>, zigzagType: ZigZagType, threshold: real, up: bool, start: Point, m: int)
    requires PositivePrices(quotes) && 1 <= start.index <= m <= |quotes| && start.value > 0.0
  {
    ScanTo(quotes, zigzagType, up, start, m).change >= threshold
  }

  /** EvaluateNextPoint stops at the first bar c whose retracement reaches
      the threshold and returns the extreme as it stands there: nothing after
      bar c is read. */
  lemma {:induction false} NextPointAtFirstConfirmation(quotes: seq<Quote>, zigzagType: ZigZagType, threshold: real,
                                                         up: bool, start: Point, m: int, c: int)
    requires PositivePrices(quotes) && 1 <= start.index <= m < c <= |quotes| && start.value > 0.0
    requires Confirmed(quotes, zigzagType, threshold, up, start, c)
    requires forall k :: m < k < c ==> !Confirmed(quotes, zigzagType, threshold, up, start, k)
    ensures var s := ScanTo(quotes, zigzagType, up, start, c);
      NextPointFrom(quotes, zigzagType, threshold, up, start, m) == Point(s.index, s.value, Some(Direction(up)))
    decreases c - m
  {
    if m + 1 < c {
      assert !Confirmed(quotes, zigzagType, threshold, up, start, m + 1);
      NextPointAtFirstConfirmation(quotes, zigzagType, threshold, up, start, m + 1, c);
    }
  }

  /** The bar that first confirms did not move the extreme: its own
      retracement from the extreme (below it scanning up, above it scanning
      down) is what reached the threshold, so the confirmed extreme lies
      strictly before it. */
  lemma ConfirmingBarRetraces(quotes: seq<Quote>, zigzagType: ZigZagType, threshold: real, up: bool, start: Point, c: int)
    requires PositivePrices(quotes) && 1 <= start.index < c <= |quotes| && start.value > 0.0
    requires threshold > 0.0
    requires Confirmed(quotes, zigzagType, threshold, up, start, c)
    requires c - 1 == start.index || !Confirmed(quotes, zigzagType, threshold, up, start, c - 1)
    ensures var s := ScanTo(quotes, zigzagType, up, start, c);
      var e := EvalAt(quotes, zigzagType, c);
      && s.index == ScanTo(quotes, zigzagType, up, start, c - 1).index
      && s.index < c
      && s.change == if up then (s.value - e.low) / s.value else (e.high - s.value) / s.value
  {
  }

  /** When no bar after the start confirms, the scanner runs to the last
      bar and returns the extreme it holds; that extreme loses its type
      exactly when it sits on the last bar. */
  lemma {:induction false} NextPointUnconfirmed(quotes: seq<Quote>, zigzagType: ZigZagType, threshold: real,
                                                 up: bool, start: Point, m: int)
    requires PositivePrices(quotes) && 1 <= start.index <= m <= |quotes| && start.value > 0.0
    requires threshold > 0.0
    requires forall k :: m < k <= |quotes| ==> !Confirmed(quotes, zigzagType, threshold, up, start, k)
    requires m == start.index || !Confirmed(quotes, zigzagType, threshold, up, start, m)
    ensures var s := ScanTo(quotes, zigzagType, up, start, |quotes|);
      NextPointFrom(quotes, zigzagType, threshold, up, start, m) ==
        Point(s.index, s.value, if s.index == |quotes| then None else Some(Direction(up)))
    decreases |quotes| - m
  {
    if m < |quotes| {
      NextPointUnconfirmed(quotes, zigzagType, threshold, up, start, m + 1);
    }
  }

  // ---------------------------------------------------------------------
  // Line painters

  /** The straight line from a to b, evaluated at bar `index`, computed as
      the source does: a's value plus the per-bar increment times the
      distance from a. */
  function Interpolate(a: Point, b: Point, index: int): real
    requires a.index < b.index
  {
    a.value + (b.value - a.value) / (b.index - a.index) as real * (index - a.index) as real
  }

  /** The line passes exactly through both points and stays between their
      values in between. */
  lemma InterpolateEndpoints(a: Point, b: Point, index: int)
    requires a.index < b.index
    ensures Interpolate(a, b, a.index) == a.value
    ensures Interpolate(a, b, b.index) == b.value
    ensures a.index <= index <= b.index && a.value <= b.value ==>
      a.value <= Interpolate(a, b, index) <= b.value
    ensures a.index <= index <= b.index && b.value <= a.value ==>
      b.value <= Interpolate(a, b, index) <= a.value
  {
    var d := (b.index - a.index) as real;
    var inc := (b.value - a.value) / d;
    assert inc * d == b.value - a.value;
    if a.index <= index <= b.index {
      var t := (index - a.index) as real;
      assert 0.0 <= t <= d;
      if a.value <= b.value {
        assert inc >= 0.0;
        assert inc * t <= inc * d;
      } else {
        assert inc <= 0.0;
        assert inc * t >= inc * d;
      }
    }
  }

  /** The row DrawZigZagLine appends for bar `index` on the leg from `last`
      to `next`: the line's value (null on the first leg, which starts at
      bar 1, except at its end), and the type only on the leg's last bar. */
  function SegmentRow(quotes: seq<Quote>, last: Point, next: Point, index: int): ZigZagResult
    requires 1 <= index <= |quotes| && last.index < next.index
  {
    ZigZagResult(
      quotes[index - 1].date,
      if last.index != 1 || index == next.index then Some(Interpolate(last, next, index)) else None,
      if index == next.index then next.pointType else None,
      None,
      None)
  }

  /** The rows of bars last.index + 1 .. next.index. */
  function Segment(quotes: seq<Quote>, last: Point, next: Point): (seg: seq<ZigZagResult>)
    requires 1 <= last.index < next.index <= |quotes|
    ensures |seg| == next.index - last.index
    ensures forall j :: 0 <= j < |seg| ==> seg[j] == SegmentRow(quotes, last, next, last.index + 1 + j)
  {
    seq(next.index - last.index, j requires 0 <= j < next.index - last.index =>
      SegmentRow(quotes, last, next, last.index + 1 + j))
  }

  /** A leg ends on the new point's row with exactly its value and type;
      every row before it has no type and, except on the first leg, a value
      on the line between the two points. */
  lemma SegmentShape(quotes: seq<Quote>, last: Point, next: Point)
    requires 1 <= last.index < next.index <= |quotes|
    ensures var seg := Segment(quotes, last, next);
      && seg[|seg| - 1].zigzag == Some(next.value)
      && seg[|seg| - 1].pointType == next.pointType
      && (forall j :: 0 <= j < |seg| ==> seg[j].date == quotes[last.index + j].date)
      && (forall j :: 0 <= j < |seg| - 1 ==> seg[j].pointType == None)
      && (forall j :: 0 <= j < |seg| - 1 ==> (seg[j].zigzag == None <==> last.index == 1))
      && (forall j :: 0 <= j < |seg| ==> seg[j].zigzag.Some? && last.value <= next.value ==>
            last.value <= seg[j].zigzag.value <= next.value)
      && (forall j :: 0 <= j < |seg| ==> seg[j].zigzag.Some? && next.value <= last.value ==>
            next.value <= seg[j].zigzag.value <= last.value)
  {
    var seg := Segment(quotes, last, next);
    InterpolateEndpoints(last, next, next.index);
    forall j | 0 <= j < |seg|
      ensures seg[j].zigzag.Some? && last.value <= next.value ==> last.value <= seg[j].zigzag.value <= next.value
      ensures seg[j].zigzag.Some? && next.value <= last.value ==> next.value <= seg[j].zigzag.value <= last.value
    {
      InterpolateEndpoints(last, next, last.index + 1 + j);
    }
  }

  /** Row r with its retrace-high (or retrace-low) field set to v. */
  function WithRetrace(r: ZigZagResult, isHighLine: bool, v: real): ZigZagResult
  {
    if isHighLine then r.(retraceHigh := Some(v)) else r.(retraceLow := Some(v))
  }

  /** DrawRetraceLine's rewrite: rows of bars prior.index .. next.index get
      the line from prior to next in one retrace field. */
  function Retraced(rows: seq<ZigZagResult>, prior: Point, next: Point, isHighLine: bool): (r: seq<ZigZagResult>)
    requires 1 <= prior.index < next.index <= |rows|
    ensures |r| == |rows|
    ensures forall k :: 0 <= k < |rows| ==>
      r[k] == if prior.index - 1 <= k < next.index then WithRetrace(rows[k], isHighLine, Interpolate(prior, next, k + 1)) else rows[k]
  {
    seq(|rows|, k requires 0 <= k < |rows| =>
      if prior.index - 1 <= k < next.index then WithRetrace(rows[k], isHighLine, Interpolate(prior, next, k + 1)) else rows[k])
  }

  /** The retrace line depends only on where the prior point is, not on
      its type. */
  lemma RetraceIgnoresType(rows: seq<ZigZagResult>, prior: Point, prior': Point, next: Point, isHighLine: bool)
    requires 1 <= prior.index < next.index <= |rows|
    requires prior.index == prior'.index && prior.value == prior'.value
    ensures Retraced(rows, prior, next, isHighLine) == Retraced(rows, prior', next, isHighLine)
  {
    var d := (next.index - prior.index) as real;
    assert (next.value - prior.value) / d == (next.value - prior'.value) / d;
    forall k | 0 <= k < |rows|
      ensures Retraced(rows, prior, next, isHighLine)[k] == Retraced(rows, prior', next, isHighLine)[k]
    {
      assert Interpolate(prior, next, k + 1) == Interpolate(prior', next, k + 1);
    }
  }

  /** A retrace line starts on the prior point's row with its value and ends
      on the new point's row with its value; it touches one retrace field
      and nothing else of any row, and no row outside that range. */
  lemma RetraceShape(rows: seq<ZigZagResult>, prior: Point, next: Point, isHighLine: bool)
    requires 1 <= prior.index < next.index <= |rows|
    ensures var r := Retraced(rows, prior, next, isHighLine);
      && (if isHighLine then r[prior.index - 1].retraceHigh else r[prior.index - 1].retraceLow) == Some(prior.value)
      && (if isHighLine then r[next.index - 1].retraceHigh else r[next.index - 1].retraceLow) == Some(next.value)
      && (forall k :: 0 <= k < |rows| ==>
            && r[k].date == rows[k].date && r[k].zigzag == rows[k].zigzag && r[k].pointType == rows[k].pointType
            && (if isHighLine then r[k].retraceLow == rows[k].retraceLow else r[k].retraceHigh == rows[k].retraceHigh))
      && (forall k :: 0 <= k < prior.index - 1 || next.index <= k < |rows| ==> r[k] == rows[k])
  {
    InterpolateEndpoints(prior, next, prior.index);
  }

  // ---------------------------------------------------------------------
  // Driver

  /** The row GetZigZag starts with: the first bar's date and nothing else. */
  function FirstRow(quotes: seq<Quote>): ZigZagResult
    requires |quotes| >= 1
  {
    ZigZagResult(quotes[0].date, None, None, None, None)
  }

  /** The driver's variables between legs: lastPoint, lastHighPoint,
      lastLowPoint and the rows emitted so far. */
  datatype State = State(last: Point, high: Point, low: Point, rows: seq<ZigZagResult>)

  /** The driver's state between legs is consistent: one row per bar up to
      the last point, and the last high and low points at or before it. */
  predicate Consistent(quotes: seq<Quote>, st: State)
  {
    && PositivePrices(quotes)
    && 1 <= st.last.index <= |quotes| && st.last.value > 0.0
    && 1 <= st.high.index <= st.last.index
    && 1 <= st.low.index <= st.last.index
    && |st.rows| == st.last.index
  }

  /** One pass of the loop once the next point is known to lie past the
      last one: DrawZigZagLine appends the leg and moves the last point,
      then DrawRetraceLine redraws the line from the previous point of the
      polarity the leg turns away from (unless that is still bar 1) and
      moves that point. */
  function Advance(quotes: seq<Quote>, st: State, next: Point): (st': State)
    requires Consistent(quotes, st) && st.last.index < next.index <= |quotes| && next.value > 0.0
    ensures Consistent(quotes, st')
  {
    var isHighLine := st.last.pointType == Some(L);
    var prior := if isHighLine then st.high else st.low;
    var drawn := st.rows + Segment(quotes, st.last, next);
    var moved := prior.(index := next.index, value := next.value);
    State(next,
          if isHighLine then moved else st.high,
          if isHighLine then st.low else moved,
          if prior.index == 1 then drawn else Retraced(drawn, prior, next, isHighLine))
  }

  /** A pass appends the rows of the new leg with their bars' dates, keeps
      the zig-zag value and type of every earlier row, and never touches
      the first row. */
  lemma AdvanceShape(quotes: seq<Quote>, st: State, next: Point)
    requires Consistent(quotes, st) && st.last.index < next.index <= |quotes| && next.value > 0.0
    requires forall k :: 0 <= k < |st.rows| ==> st.rows[k].date == quotes[k].date
    ensures var rows := Advance(quotes, st, next).rows;
      && |rows| == next.index
      && (forall k :: 0 <= k < |rows| ==> rows[k].date == quotes[k].date)
      && (forall k :: 0 <= k < |st.rows| ==>
            rows[k].zigzag == st.rows[k].zigzag && rows[k].pointType == st.rows[k].pointType)
      && rows[0] == st.rows[0]
  {
    var drawn := st.rows + Segment(quotes, st.last, next);
    assert forall k :: 0 <= k < |drawn| ==> drawn[k].date == quotes[k].date;
  }

  /** The rest of GetZigZag's "find and draw lines" loop from state st:
      find the next point and advance, until the last point reaches the
      final bar. A next point that has not moved past the last one makes
      DrawZigZagLine's increment divide by zero. */
  ghost function Run(quotes: seq<Quote>, zigzagType: ZigZagType, threshold: real, st: State): Result<seq<ZigZagResult>>
    requires Consistent(quotes, st)
    decreases |quotes| - st.last.index
  {
    if st.last.index >= |quotes| then Success(st.rows)
    else
      var next := NextPoint(quotes, zigzagType, threshold, st.last);
      if next.index == st.last.index then Failure(DivideByZero)
      else Run(quotes, zigzagType, threshold, Advance(quotes, st, next))
  }

  /** The state GetZigZag enters its loop with: the probe's point, the
      first bar's high and low as the last high and low points, and the
      first row. */
  function StartState(quotes: seq<Quote>, zigzagType: ZigZagType, threshold: real): (st: State)
    requires 1 <= |quotes| && PositivePrices(quotes)
    ensures Consistent(quotes, st)
  {
    var first := EvalAt(quotes, zigzagType, 1);
    State(InitialPoint(quotes, zigzagType, threshold, 0), Point(1, first.high, Some(H)), Point(1, first.low, Some(L)),
          [FirstRow(quotes)])
  }

  /** When the loop finishes it has emitted one row per bar, each carrying
      its bar's date; it never rewrites the zig-zag value or type of a row
      once drawn, nor anything in the first row; and the only error it can
      raise is the division by zero. */
  lemma {:induction false} RunShape(quotes: seq<Quote>, zigzagType: ZigZagType, threshold: real, st: State)
    requires Consistent(quotes, st)
    requires forall k :: 0 <= k < |st.rows| ==> st.rows[k].date == quotes[k].date
    ensures var r := Run(quotes, zigzagType, threshold, st);
      && (r.Success? || r == Failure(DivideByZero))
      && (r.Success? ==>
            && |r.value| == |quotes|
            && (forall k :: 0 <= k < |quotes| ==> r.value[k].date == quotes[k].date)
            && (forall k :: 0 <= k < |st.rows| ==>
                  r.value[k].zigzag == st.rows[k].zigzag && r.value[k].pointType == st.rows[k].pointType)
            && r.value[0] == st.rows[0])
    decreases |quotes| - st.last.index
  {
    if st.last.index < |quotes| {
      var next := NextPoint(quotes, zigzagType, threshold, st.last);
      if next.index != st.last.index {
        AdvanceShape(quotes, st, next);
        RunShape(quotes, zigzagType, threshold, Advance(quotes, st, next));
      }
    }
  }

  /** GetZigZag's loop from the start state: it either divides by zero or
      returns one row per quote, in order, with the first row holding only
      its date. */
  ghost function LoopOutcome(quotes: seq<Quote>, zigzagType: ZigZagType, threshold: real): (r: Result<seq<ZigZagResult>>)
    requires 1 <= |quotes| && PositivePrices(quotes)
    ensures r.Success? || r == Failure(DivideByZero)
    ensures r.Success? ==>
      && |r.value| == |quotes|
      && (forall k :: 0 <= k < |quotes| ==> r.value[k].date == quotes[k].date)
      && r.value[0] == FirstRow(quotes)
  {
    var st := StartState(quotes, zigzagType, threshold);
    RunShape(quotes, zigzagType, threshold, st);
    Run(quotes, zigzagType, threshold, st)
  }

  /** What GetZigZag returns: it rejects exactly what ValidateZigZag
      rejects; otherwise it runs the loop from the start state, whose only
      error is the division by zero. */
  ghost function ZigZagOutcome(quotes: seq<Quote>, zigzagType: ZigZagType, percentChange: real): (r: Result<seq<ZigZagResult>>)
    requires PositivePrices(quotes)
    ensures ValidateZigZag(|quotes|, percentChange).Some? ==> r == Failure(ValidateZigZag(|quotes|, percentChange).value)
    ensures ValidateZigZag(|quotes|, percentChange).None? ==> r.Success? || r == Failure(DivideByZero)
    ensures r.Success? ==>
      && |r.value| == |quotes|
      && (forall k :: 0 <= k < |quotes| ==> r.value[k].date == quotes[k].date)
      && r.value[0] == FirstRow(quotes)
  {
    var invalid := ValidateZigZag(|quotes|, percentChange);
    if invalid.Some? then Failure(invalid.value)
    else LoopOutcome(quotes, zigzagType, percentChange / 100.0)
  }

  /** Two closes, 100 then 101, with a 5% threshold: the probe finds no
      trend, the down-scan from the first close never moves and never
      confirms, so the scanner hands back bar 1 itself and the leg's
      increment divides by zero. */
  lemma StalledScanDividesByZero()
    ensures ZigZagOutcome([Quote(1, 100.0, 100.0, 100.0, 100.0, 0.0), Quote(2, 101.0, 101.0, 101.0, 101.0, 0.0)],
                          Close, 5.0) == Failure(DivideByZero)
  {
    var quotes := [Quote(1, 100.0, 100.0, 100.0, 100.0, 0.0), Quote(2, 101.0, 101.0, 101.0, 101.0, 0.0)];
    var threshold := 5.0 / 100.0;
    assert !UpSignal(quotes, Close, threshold, 1) && !DownSignal(quotes, Close, threshold, 1);
    assert !UpSignal(quotes, Close, threshold, 2) && !DownSignal(quotes, Close, threshold, 2);
    var st := StartState(quotes, Close, threshold);
    assert st.last == Point(1, 100.0, Some(U));
    assert ScanTo(quotes, Close, false, st.last, 2) == Scan(1, 100.0, 1.0 / 100.0);
    assert NextPoint(quotes, Close, threshold, st.last) == Point(1, 100.0, Some(L));
  }

  // ---------------------------------------------------------------------
  // The imperative engine

  /** A ZigZagPoint object; the engine overwrites its fields in place. */
  class ZigZagPoint {
    var index: int
    var value: real
    var pointType: Option<PointType>

    constructor(index: int, value: real, pointType: Option<PointType>)
      ensures Snapshot() == Point(index, value, pointType)
    {
      this.index := index;
      this.value := value;
      this.pointType := pointType;
    }

    /** The point's current field values. */
    function Snapshot(): Point
      reads this
    {
      Point(index, value, pointType)
    }
  }

  /** The results list: rows are appended, and earlier rows' retrace
      fields rewritten. */
  class ResultList {
    var rows: seq<ZigZagResult>

    constructor()
      ensures rows == []
    {
      rows := [];
    }

    method Add(r: ZigZagResult)
      modifies this
      ensures rows == old(rows) + [r]
    {
      rows := rows + [r];
    }
  }

  /** GetZigZag's probe loop: compare every bar with the first bar's low and
      high and, at the first bar that signals, copy that low point (up-trend)
      or high point (down-trend) into lastPoint. */
  method FindInitialTrend(quotes: seq<Quote>, zigzagType: ZigZagType, changeThreshold: real,
                          lastPoint: ZigZagPoint, lastHighPoint: ZigZagPoint, lastLowPoint: ZigZagPoint)
    requires 1 <= |quotes| && PositivePrices(quotes)
    requires lastPoint != lastHighPoint && lastPoint != lastLowPoint
    requires lastPoint.Snapshot() == Point(1, quotes[0].close, Some(U))
    requires lastHighPoint.Snapshot() == Point(1, EvalAt(quotes, zigzagType, 1).high, Some(H))
    requires lastLowPoint.Snapshot() == Point(1, EvalAt(quotes, zigzagType, 1).low, Some(L))
    modifies lastPoint
    ensures lastPoint.Snapshot() == InitialPoint(quotes, zigzagType, changeThreshold, 0)
  {
    for i := 0 to |quotes|
      invariant lastPoint.Snapshot() == Point(1, quotes[0].close, Some(U))
      invariant InitialPoint(quotes, zigzagType, changeThreshold, i) == InitialPoint(quotes, zigzagType, changeThreshold, 0)
    {
      var h := quotes[i];
      var index := i + 1;
      var eval := GetZigZagEval(zigzagType, index, h);
      var changeUp := (eval.high - lastLowPoint.value) / lastLowPoint.value;
      var changeDn := (lastHighPoint.value - eval.low) / lastHighPoint.value;
      assert changeUp == ChangeUp(quotes, zigzagType, index) && changeDn == ChangeDn(quotes, zigzagType, index);

      if changeUp >= changeThreshold && changeUp > changeDn {
        lastPoint.index := lastLowPoint.index;
        lastPoint.value := lastLowPoint.value;
        lastPoint.pointType := lastLowPoint.pointType;
        break;
      }

      if changeDn >= changeThreshold && changeDn > changeUp {
        lastPoint.index := lastHighPoint.index;
        lastPoint.value := lastHighPoint.value;
        lastPoint.pointType := lastHighPoint.pointType;
        break;
      }
    }
  }

  /** The switch in EvaluateNextPoint's loop: move the extreme to the bar,
      or compute the bar's retracement from it. */
  method ResetExtreme(extremePoint: ZigZagPoint, change: real, eval: ZigZagEval, trendUp: bool) returns (change': real)
    requires extremePoint.value > 0.0 && eval.high > 0.0 && eval.low > 0.0
    modifies extremePoint
    ensures Scan(extremePoint.index, extremePoint.value, change') ==
      StepScan(Scan(old(extremePoint.index), old(extremePoint.value), change), eval, trendUp)
    ensures extremePoint.pointType == old(extremePoint.pointType)
  {
    change' := change;
    if trendUp {
      if eval.high >= extremePoint.value {
        extremePoint.index := eval.index;
        extremePoint.value := eval.high;
      } else {
        change' := (extremePoint.value - eval.low) / extremePoint.value;
      }
    } else {
      if eval.low <= extremePoint.value {
        extremePoint.index := eval.index;
        extremePoint.value := eval.low;
      } else {
        change' := (eval.high - extremePoint.value) / extremePoint.value;
      }
    }
  }

  /** EvaluateNextPoint: scan forward from the last point for the extreme
      that a retracement of at least the threshold confirms. */
  method EvaluateNextPoint(quotes: seq<Quote>, zigzagType: ZigZagType, changeThreshold: real, lastPoint: ZigZagPoint)
    returns (extremePoint: ZigZagPoint)
    requires PositivePrices(quotes) && 1 <= lastPoint.index <= |quotes| && lastPoint.value > 0.0
    ensures fresh(extremePoint)
    ensures extremePoint.Snapshot() == NextPoint(quotes, zigzagType, changeThreshold, lastPoint.Snapshot())
  {
    ghost var start := lastPoint.Snapshot();
    var trendUp := lastPoint.pointType == Some(L);
    var change := 0.0;
    extremePoint := new ZigZagPoint(lastPoint.index, lastPoint.value, Some(if trendUp then H else L));

    // find extreme point before reversal point
    for i := lastPoint.index to |quotes|
      invariant extremePoint.index == ScanTo(quotes, zigzagType, trendUp, start, i).index
      invariant extremePoint.value == ScanTo(quotes, zigzagType, trendUp, start, i).value
      invariant change == ScanTo(quotes, zigzagType, trendUp, start, i).change
      invariant extremePoint.pointType == Some(Direction(trendUp))
      invariant NextPointFrom(quotes, zigzagType, changeThreshold, trendUp, start, i) == NextPoint(quotes, zigzagType, changeThreshold, start)
    {
      var h := quotes[i];
      var index := i + 1;
      var eval := GetZigZagEval(zigzagType, index, h);

      // reset extreme point
      change := ResetExtreme(extremePoint, change, eval, trendUp);
      // return extreme point when deviation threshold met
      if change >= changeThreshold {
        return;
      }
    }

    // handle last unconfirmed point
    var finalPointIndex := |quotes|;
    if extremePoint.index == finalPointIndex && change < changeThreshold {
      extremePoint.pointType := None;
    }
  }

  /** DrawZigZagLine: append one row per bar after lastPoint up to
      nextPoint, then make lastPoint a copy of nextPoint. A next point at the
      last point's own index makes the increment divide by zero, before
      anything changes. */
  method DrawZigZagLine(results: ResultList, quotes: seq<Quote>, lastPoint: ZigZagPoint, nextPoint: ZigZagPoint)
    returns (err: Option<Error>)
    requires lastPoint != nextPoint
    requires 1 <= lastPoint.index <= nextPoint.index <= |quotes|
    requires |results.rows| == lastPoint.index
    modifies results, lastPoint
    ensures err.Some? <==> old(lastPoint.index) == nextPoint.index
    ensures err.Some? ==> err.value == DivideByZero && unchanged(results, lastPoint)
    ensures err.None? ==>
      && results.rows == old(results.rows) + Segment(quotes, old(lastPoint.Snapshot()), nextPoint.Snapshot())
      && lastPoint.Snapshot() == nextPoint.Snapshot()
  {
    if nextPoint.index == lastPoint.index {
      return Some(DivideByZero);
    }
    ghost var last := lastPoint.Snapshot();
    ghost var before := results.rows;
    var increment := (nextPoint.value - lastPoint.value) / (nextPoint.index - lastPoint.index) as real;

    // add new line segment
    for i := lastPoint.index to nextPoint.index
      invariant lastPoint.Snapshot() == last
      invariant |results.rows| == i
      invariant results.rows[..last.index] == before
      invariant forall k :: last.index <= k < i ==> results.rows[k] == SegmentRow(quotes, last, nextPoint.Snapshot(), k + 1)
    {
      var h := quotes[i];
      var index := i + 1;
      var result := ZigZagResult(
        h.date,
        if lastPoint.index != 1 || index == nextPoint.index
          then Some(lastPoint.value + increment * (index - lastPoint.index) as real) else None,
        if index == nextPoint.index then nextPoint.pointType else None,
        None,
        None);
      assert Interpolate(lastPoint.Snapshot(), nextPoint.Snapshot(), index) == lastPoint.value + increment * (index - lastPoint.index) as real;
      assert result == SegmentRow(quotes, lastPoint.Snapshot(), nextPoint.Snapshot(), index);
      results.Add(result);
    }
    assert results.rows == before + Segment(quotes, last, nextPoint.Snapshot());

    // reset lastpoint
    lastPoint.index := nextPoint.index;
    lastPoint.value := nextPoint.value;
    lastPoint.pointType := nextPoint.pointType;
    return None;
  }

  /** DrawRetraceLine: after a low, move lastHighPoint to nextPoint and
      redraw RetraceHigh from the previous high to it; otherwise the same
      with lastLowPoint and RetraceLow. Nothing is drawn while the previous
      point of that polarity is still bar 1. */
  method DrawRetraceLine(results: ResultList, lastDirection: Option<PointType>,
                         lastLowPoint: ZigZagPoint, lastHighPoint: ZigZagPoint, nextPoint: ZigZagPoint)
    requires lastLowPoint != lastHighPoint && lastLowPoint != nextPoint && lastHighPoint != nextPoint
    requires 1 <= lastHighPoint.index < nextPoint.index <= |results.rows|
    requires 1 <= lastLowPoint.index < nextPoint.index
    modifies results, lastLowPoint, lastHighPoint
    ensures lastDirection == Some(L) ==>
      && lastHighPoint.Snapshot() == old(lastHighPoint.Snapshot()).(index := nextPoint.index, value := nextPoint.value)
      && lastLowPoint.Snapshot() == old(lastLowPoint.Snapshot())
    ensures lastDirection != Some(L) ==>
      && lastLowPoint.Snapshot() == old(lastLowPoint.Snapshot()).(index := nextPoint.index, value := nextPoint.value)
      && lastHighPoint.Snapshot() == old(lastHighPoint.Snapshot())
    ensures var isHighLine := lastDirection == Some(L);
      var prior := if isHighLine then old(lastHighPoint.Snapshot()) else old(lastLowPoint.Snapshot());
      results.rows == if prior.index == 1 then old(results.rows) else Retraced(old(results.rows), prior, nextPoint.Snapshot(), isHighLine)
  {
    var isHighLine := lastDirection == Some(L);
    var priorPoint := new ZigZagPoint(0, 0.0, None);

    // handle type and reset last point
    if isHighLine {
      priorPoint.index := lastHighPoint.index;
      priorPoint.value := lastHighPoint.value;

      lastHighPoint.index := nextPoint.index;
      lastHighPoint.value := nextPoint.value;
    } else {
      priorPoint.index := lastLowPoint.index;
      priorPoint.value := lastLowPoint.value;

      lastLowPoint.index := nextPoint.index;
      lastLowPoint.value := nextPoint.value;
    }

    // nothing to do if first line
    if priorPoint.index == 1 {
      return;
    }

    ghost var prior := if isHighLine then old(lastHighPoint.Snapshot()) else old(lastLowPoint.Snapshot());
    PaintRetraceLine(results, priorPoint, nextPoint, isHighLine);
    RetraceIgnoresType(old(results.rows), priorPoint.Snapshot(), prior, nextPoint.Snapshot(), isHighLine);
  }

  /** The second half of DrawRetraceLine: rewrite the retrace field of the
      rows of bars priorPoint.index .. nextPoint.index with the line between
      the two points. */
  method PaintRetraceLine(results: ResultList, priorPoint: ZigZagPoint, nextPoint: ZigZagPoint, isHighLine: bool)
    requires 1 <= priorPoint.index < nextPoint.index <= |results.rows|
    modifies results
    ensures results.rows == Retraced(old(results.rows), priorPoint.Snapshot(), nextPoint.Snapshot(), isHighLine)
  {
    ghost var before := results.rows;

    // narrow to period
    var increment := (nextPoint.value - priorPoint.value) / (nextPoint.index - priorPoint.index) as real;

    // add new line segment
    for i := priorPoint.index - 1 to nextPoint.index
      invariant |results.rows| == |before|
      invariant forall k :: 0 <= k < |before| ==>
        results.rows[k] == if priorPoint.index - 1 <= k < i
          then WithRetrace(before[k], isHighLine, Interpolate(priorPoint.Snapshot(), nextPoint.Snapshot(), k + 1))
          else before[k]
    {
      var r := results.rows[i];
      var index := i + 1;
      var v := priorPoint.value + increment * (index - priorPoint.index) as real;
      assert v == Interpolate(priorPoint.Snapshot(), nextPoint.Snapshot(), index);
      if isHighLine {
        results.rows := results.rows[i := r.(retraceHigh := Some(v))];
      } else {
        results.rows := results.rows[i := r.(retraceLow := Some(v))];
      }
    }
  }

  /** The driver's current variables as a State. */
  function CurrentState(lastPoint: ZigZagPoint, lastHighPoint: ZigZagPoint, lastLowPoint: ZigZagPoint, results: ResultList): State
    reads lastPoint, lastHighPoint, lastLowPoint, results
  {
    State(lastPoint.Snapshot(), lastHighPoint.Snapshot(), lastLowPoint.Snapshot(), results.rows)
  }

  /** GetZigZag over quotes already in date order. */
  method GetZigZag(quotes: seq<Quote>, zigzagType: ZigZagType, percentChange: real) returns (r: Result<seq<ZigZagResult>>)
    requires PositivePrices(quotes)
    ensures r == ZigZagOutcome(quotes, zigzagType, percentChange)
  {
    // check parameters
    var invalid := ValidateZigZag(|quotes|, percentChange);
    if invalid.Some? {
      return Failure(invalid.value);
    }

    var changeThreshold := percentChange / 100.0;
    var results, lastPoint, lastHighPoint, lastLowPoint := Initialize(quotes, zigzagType, changeThreshold);

    // find and draw lines
    r := DrawLines(quotes, zigzagType, changeThreshold, results, lastPoint, lastHighPoint, lastLowPoint);
  }

  /** GetZigZag's set-up: the first bar's close as an unknown-type last
      point, its high and low as the last high and low points, the probe
      for the initial trend, and the first row holding only its date. */
  method Initialize(quotes: seq<Quote>, zigzagType: ZigZagType, changeThreshold: real)
    returns (results: ResultList, lastPoint: ZigZagPoint, lastHighPoint: ZigZagPoint, lastLowPoint: ZigZagPoint)
    requires 1 <= |quotes| && PositivePrices(quotes)
    ensures fresh(results) && fresh(lastPoint) && fresh(lastHighPoint) && fresh(lastLowPoint)
    ensures lastPoint != lastHighPoint && lastPoint != lastLowPoint && lastHighPoint != lastLowPoint
    ensures CurrentState(lastPoint, lastHighPoint, lastLowPoint, results) == StartState(quotes, zigzagType, changeThreshold)
  {
    results := new ResultList();
    var firstQuote := quotes[0];
    var eval := GetZigZagEval(zigzagType, 1, firstQuote);
    lastPoint := new ZigZagPoint(eval.index, firstQuote.close, Some(U));
    lastHighPoint := new ZigZagPoint(eval.index, eval.high, Some(H));
    lastLowPoint := new ZigZagPoint(eval.index, eval.low, Some(L));

    // roll through history until to find initial trend
    FindInitialTrend(quotes, zigzagType, changeThreshold, lastPoint, lastHighPoint, lastLowPoint);

    // add first point to results
    results.Add(ZigZagResult(firstQuote.date, None, None, None, None));
  }

  /** One pass of GetZigZag's "find and draw lines" loop: find the next
      point, draw the leg to it, then redraw the retrace line. */
  method DrawLeg(quotes: seq<Quote>, zigzagType: ZigZagType, changeThreshold: real, results: ResultList,
                 lastPoint: ZigZagPoint, lastHighPoint: ZigZagPoint, lastLowPoint: ZigZagPoint)
    returns (err: Option<Error>)
    requires lastPoint != lastHighPoint && lastPoint != lastLowPoint && lastHighPoint != lastLowPoint
    requires Consistent(quotes, CurrentState(lastPoint, lastHighPoint, lastLowPoint, results))
    requires lastPoint.index < |quotes|
    modifies results, lastPoint, lastHighPoint, lastLowPoint
    ensures var st := old(CurrentState(lastPoint, lastHighPoint, lastLowPoint, results));
      var next := NextPoint(quotes, zigzagType, changeThreshold, st.last);
      if next.index == st.last.index then err == Some(DivideByZero)
      else err.None? && CurrentState(lastPoint, lastHighPoint, lastLowPoint, results) == Advance(quotes, st, next)
  {
    ghost var st := CurrentState(lastPoint, lastHighPoint, lastLowPoint, results);
    var nextPoint := EvaluateNextPoint(quotes, zigzagType, changeThreshold, lastPoint);
    var lastDirection := lastPoint.pointType;

    // draw line (and reset last point)
    err := DrawZigZagLine(results, quotes, lastPoint, nextPoint);
    if err.Some? {
      return;
    }

    // draw retrace line (and reset last high/low point)
    DrawRetraceLine(results, lastDirection, lastLowPoint, lastHighPoint, nextPoint);
    assert CurrentState(lastPoint, lastHighPoint, lastLowPoint, results) == Advance(quotes, st, nextPoint.Snapshot());
  }

  /** GetZigZag's "find and draw lines" loop, from whatever state the probe
      left; it ends when the last point reaches the final bar. */
  method DrawLines(quotes: seq<Quote>, zigzagType: ZigZagType, changeThreshold: real, results: ResultList,
                   lastPoint: ZigZagPoint, lastHighPoint: ZigZagPoint, lastLowPoint: ZigZagPoint)
    returns (r: Result<seq<ZigZagResult>>)
    requires lastPoint != lastHighPoint && lastPoint != lastLowPoint && lastHighPoint != lastLowPoint
    requires Consistent(quotes, CurrentState(lastPoint, lastHighPoint, lastLowPoint, results))
    modifies results, lastPoint, lastHighPoint, lastLowPoint
    ensures r == Run(quotes, zigzagType, changeThreshold, old(CurrentState(lastPoint, lastHighPoint, lastLowPoint, results)))
  {
    var finalPointIndex := |quotes|;
    while lastPoint.index < finalPointIndex
      invariant Consistent(quotes, CurrentState(lastPoint, lastHighPoint, lastLowPoint, results))
      invariant Run(quotes, zigzagType, changeThreshold, CurrentState(lastPoint, lastHighPoint, lastLowPoint, results))
        == Run(quotes, zigzagType, changeThreshold, old(CurrentState(lastPoint, lastHighPoint, lastLowPoint, results)))
      decreases finalPointIndex - lastPoint.index
    {
      var err := DrawLeg(quotes, zigzagType, changeThreshold, results, lastPoint, lastHighPoint, lastLowPoint);
      if err.Some? {
        return Failure(err.value);
      }
    }

    return Success(results.rows);
  }
}
