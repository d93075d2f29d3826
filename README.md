# Stock indicators: ZigZag, Pivots, Alligator, Slope

A Dafny model of four indicators from a C# stock-indicator library, each
proved against a specification written as functions over the input bars.

- **ZigZag** (`ZigZag.dfy`) is the reversal-detection engine. A probe over
  the bars finds the initial trend. A forward scanner then follows a running
  extreme until price retraces from it by at least the threshold. A line
  painter appends interpolated rows up to each confirmed point, and a
  retrace painter redraws `RetraceHigh` / `RetraceLow` in rows already
  emitted. The engine is imperative, as in the source:
  - `ZigZagPoint` is a class whose fields the methods overwrite in place;
  - the results list is a class holding a sequence of rows.

  Each method is proved against the functional specification (`InitialPoint`,
  `ScanTo`, `NextPoint`, `Segment`, `Retraced`, `Advance`, `Run`).
- **Pivots** (`Pivots.dfy`) is the trend loop of GetPivots over a given
  fractal series. It keeps one nullable reference per polarity, expires it
  after `maxTrendPeriods`, and back-fills HH/LH (HL/LL) labels when a new
  point differs from its reference. The loop works on an array of rows and
  is proved equal, column by column, to `TrendAt`, a closed-form labelling
  of each row.
- **Alligator** (`Alligator.dfy`) fills an array of median prices and writes
  the jaw, teeth and lips lines at their forward offsets. Each line is a
  simple moving average followed by smoothed averages. The result equals
  `LineAt` over the median prices.
- **Slope** (`Slope.dfy`) computes the least-squares slope and intercept of
  the closes over a trailing window with accumulator loops, then back-fills
  `Line` over the last window.

`Common.dfy` holds the shared types:
- `Quote`;
- `Option` for C# nullable values;
- `Result` and `Error` for the exceptions the indicators throw;
- a left-to-right `Sum`.

C# `decimal` arithmetic is modelled with exact `real`s. Inputs are taken to
be in date order already.

Behaviour modelled as the code has it:

- **ZigZag division by zero.** GetZigZag can raise a division by zero. When
  the scanner hands back the last point itself, DrawZigZagLine divides by
  `nextPoint.Index - lastPoint.Index`, which is zero
  (indicators/ZigZag/ZigZag.cs:176). The model returns
  `Failure(DivideByZero)` there. `StalledScanDividesByZero` gives a
  two-bar input that does this. So GetZigZag does not return one row per
  quote for every valid argument: it does so exactly when it succeeds.
- **Slope with a lookback of 1.** This passes validation, but the slope's
  denominator is then zero (indicators/Slope/Slope.cs:72). The model returns
  `Failure(DivideByZero)`, and `SumSqXZeroIffSingleBar` shows that this is
  the only case.
- **Pivots ties.** A description of Pivots says a tie neither repaints nor
  moves the reference. The code moves the reference on a tie, because the
  reset sits outside the inequality test
  (indicators/Pivots/Pivots.cs:76-77, 97-98). The model follows the code;
  see `TieMovesReference`.
- **Pivots error name.** When `maxTrendPeriods <= leftSpan`, ValidatePivots
  reports the parameter name `leftSpan`; the model keeps that name.

## Model

| member | source | states |
|---|---|---|
| ZigZag.GetZigZagEval | indicators/ZigZag/ZigZag.cs:254-278 | The index passes through. Close mode gives high = low = close. HighLow mode gives the bar's own high and low. |
| ZigZag.EvalWithinBar | indicators/ZigZag/ZigZag.cs:254-278 | For a bar whose close lies in its range, either view's low and high lie inside the bar, with low <= high. |
| ZigZag.ValidateZigZag | indicators/ZigZag/ZigZag.cs:281-304 | ArgumentOutOfRange("percentChange") iff percentChange <= 0. Otherwise BadHistory iff there are fewer than 2 quotes. Otherwise no error. |
| ZigZag.InitialPoint | indicators/ZigZag/ZigZag.cs:50-74 | Whatever the bars, the probe's point stays at index 1 with a positive value. |
| ZigZag.InitialPointAtFirstSignal | indicators/ZigZag/ZigZag.cs:50-73 | The probe stops at the first bar with a signal. An up-trend (changeUp >= threshold and > changeDn) gives the first bar's low tagged L; a down-trend gives its high tagged H. |
| ZigZag.InitialPointWithoutSignal | indicators/ZigZag/ZigZag.cs:26-74 | When no bar signals, the last point stays the first close tagged U. |
| ZigZag.FindInitialTrend | indicators/ZigZag/ZigZag.cs:49-74 | The probe loop, with its breaks, leaves lastPoint equal to InitialPoint. |
| ZigZag.StepScan | indicators/ZigZag/ZigZag.cs:123-152 | One scan step keeps the extreme's value positive, so the next retracement ratio is defined. |
| ZigZag.ResetExtreme | indicators/ZigZag/ZigZag.cs:122-152 | The in-place switch moves the extreme object and the change exactly as StepScan does, and keeps its point type. |
| ZigZag.ScanTo | indicators/ZigZag/ZigZag.cs:115-152 | The running extreme after bar m lies between the start and bar m and stays positive. |
| ZigZag.ScanMonotone | indicators/ZigZag/ZigZag.cs:115-152 | The extreme's index never decreases. Its value never falls when scanning up and never rises when scanning down. |
| ZigZag.ScanIsRunningExtreme | indicators/ZigZag/ZigZag.cs:115-152 | The extreme is the highest high (or lowest low) of the start and the bars read, taken at the latest bar that attains it; every later bar is strictly below it (above when scanning down). |
| ZigZag.NextPointFrom | indicators/ZigZag/ZigZag.cs:115-168 | The scanner returns a point between the start and the last bar, with a positive value. |
| ZigZag.NextPoint | indicators/ZigZag/ZigZag.cs:100-169 | EvaluateNextPoint's answer never lies before the last point. |
| ZigZag.NextPointAtFirstConfirmation | indicators/ZigZag/ZigZag.cs:154-158 | The scanner returns at the first bar whose change reaches the threshold, with the extreme as it stands there, and reads nothing later. |
| ZigZag.ConfirmingBarRetraces | indicators/ZigZag/ZigZag.cs:127-158 | The confirming bar did not move the extreme: its own retracement from the extreme reached the threshold, so the point lies strictly before it. |
| ZigZag.NextPointUnconfirmed | indicators/ZigZag/ZigZag.cs:159-168 | With no confirmation, the scan runs to the last bar. The extreme loses its type exactly when it sits on the last bar. |
| ZigZag.EvaluateNextPoint | indicators/ZigZag/ZigZag.cs:100-169 | The loop over a fresh extreme object returns exactly NextPoint of the last point. |
| ZigZag.InterpolateEndpoints | indicators/ZigZag/ZigZag.cs:176-188 | The painted line passes exactly through both points and stays between their values. |
| ZigZag.Segment | indicators/ZigZag/ZigZag.cs:178-193 | A leg has next.index - last.index rows, one per bar after the last point. |
| ZigZag.SegmentShape | indicators/ZigZag/ZigZag.cs:176-190 | The leg ends with the new point's exact value and type, and each row carries its bar's date. Earlier rows have no type, and their value is null iff the leg starts at bar 1. Values stay between the endpoints. |
| ZigZag.DrawZigZagLine | indicators/ZigZag/ZigZag.cs:172-199 | Equal indices give DivideByZero with nothing changed. Otherwise it appends exactly the leg's rows and lastPoint becomes a copy of nextPoint. |
| ZigZag.Retraced | indicators/ZigZag/ZigZag.cs:233-250 | A retrace keeps the row count. Rows prior.index-1 .. next.index-1 get the line in one retrace field; all other rows are kept. |
| ZigZag.RetraceShape | indicators/ZigZag/ZigZag.cs:232-250 | The retrace line starts at the prior point's value and ends at the new point's value. It touches only one retrace field and no row outside its range. |
| ZigZag.RetraceIgnoresType | indicators/ZigZag/ZigZag.cs:206-224 | The redrawn line depends only on the prior point's index and value, not on its type. |
| ZigZag.PaintRetraceLine | indicators/ZigZag/ZigZag.cs:232-250 | The in-place loop over existing rows leaves exactly Retraced of the old rows. |
| ZigZag.DrawRetraceLine | indicators/ZigZag/ZigZag.cs:202-251 | After an L it moves lastHighPoint to the next point (otherwise lastLowPoint) and keeps the other. It draws nothing while the prior point is bar 1; otherwise the rows become Retraced. |
| ZigZag.Advance | indicators/ZigZag/ZigZag.cs:84-94 | One leg keeps the loop invariant: one row per bar up to the last point, with both same-side points at or before it. |
| ZigZag.AdvanceShape | indicators/ZigZag/ZigZag.cs:84-94 | A leg appends rows up to the new point with their bars' dates. It never changes an earlier row's value or type, nor the first row. |
| ZigZag.StartState | indicators/ZigZag/ZigZag.cs:20-81 | The loop's starting state (probe point, first high and low, first row) satisfies the loop invariant. |
| ZigZag.RunShape | indicators/ZigZag/ZigZag.cs:84-96 | The loop terminates with one dated row per quote and keeps every drawn value and type. Its only possible error is DivideByZero. |
| ZigZag.LoopOutcome | indicators/ZigZag/ZigZag.cs:76-96 | From the start state the loop returns one row per quote in order, the first holding only its date, or raises DivideByZero. |
| ZigZag.ZigZagOutcome | indicators/ZigZag/ZigZag.cs:10-97 | GetZigZag rejects exactly what ValidateZigZag rejects. Otherwise it fails only with DivideByZero, and on success returns one dated row per quote. |
| ZigZag.StalledScanDividesByZero | indicators/ZigZag/ZigZag.cs:176 | Closes 100 and 101 with a 5% threshold make GetZigZag divide by zero. |
| ZigZag.ZigZagPoint.constructor | indicators/ZigZag/ZigZag.cs:26-45 | A new point holds the given index, value and type. |
| ZigZag.ResultList.constructor | indicators/ZigZag/ZigZag.cs:21 | The results list starts empty. |
| ZigZag.ResultList.Add | indicators/ZigZag/ZigZag.cs:192 | Add appends one row at the end. |
| ZigZag.Initialize | indicators/ZigZag/ZigZag.cs:20-81 | The set-up and probe leave three distinct fresh points and the list in exactly StartState. |
| ZigZag.DrawLeg | indicators/ZigZag/ZigZag.cs:86-93 | One loop pass either raises DivideByZero (the next point has not moved) or leaves the state Advance(old state, NextPoint). |
| ZigZag.DrawLines | indicators/ZigZag/ZigZag.cs:83-96 | The while loop returns exactly Run of the state it started from. |
| ZigZag.GetZigZag | indicators/ZigZag/ZigZag.cs:10-97 | GetZigZag returns exactly ZigZagOutcome: validation, then the loop from the start state. |
| Pivots.Points | indicators/Pivots/Pivots.cs:26-34 | The high points are the FractalBear values and the low points the FractalBull values, row by row. |
| Pivots.ValidatePivots | indicators/Pivots/Pivots.cs:106-145 | Checks in source order: rightSpan < 2, then leftSpan < 2 or maxTrendPeriods <= leftSpan (both named leftSpan), then fewer than leftSpan + rightSpan + 1 quotes (BadQuotes). Each is an iff. |
| Pivots.PrevPoint | indicators/Pivots/Pivots.cs:76-77 | The reference on reaching row i is the last row since leftSpan holding a point, with none after it. |
| Pivots.Live | indicators/Pivots/Pivots.cs:47-57 | A reference survives iff it is at least i - maxTrendPeriods. |
| Pivots.Label | indicators/Pivots/Pivots.cs:63-67 | No label iff the reference expired or the values tie. Otherwise HH/HL iff higher and LH/LL iff lower. |
| Pivots.UnsettledRowIsNull | indicators/Pivots/Pivots.cs:59-73 | A row after the current reference has no label yet. |
| Pivots.StepTrendAt | indicators/Pivots/Pivots.cs:59-99 | Processing row i labels exactly the rows after the reference up to i, and nothing else. |
| Pivots.NoReferenceNoLabel | indicators/Pivots/Pivots.cs:63 | Before the first point, a null reference labels nothing. |
| Pivots.LabelsInsideLoopRange | indicators/Pivots/Pivots.cs:42-90 | Labels appear only on rows leftSpan+1 .. Count-rightSpan-1. |
| Pivots.SegmentLabel | indicators/Pivots/Pivots.cs:69-77 | Every row between two successive points carries the later point's label against the earlier one. |
| Pivots.RepaintLabelsSegment | indicators/Pivots/Pivots.cs:63-73 | A new point differing from a live reference labels rows (ref, i] HH/HL when higher and LH/LL when lower. |
| Pivots.ExpiredReferenceLabelsNothing | indicators/Pivots/Pivots.cs:47-57 | A reference older than maxTrendPeriods labels nothing. |
| Pivots.TieMovesReference | indicators/Pivots/Pivots.cs:63-98 | A tie labels nothing, yet the rows after it are labelled against the tying point, not the older one. |
| Pivots.RepaintAdvancesFill | indicators/Pivots/Pivots.cs:63-77 | Every cell a repaint writes was still null (each cell is written at most once), and the column matches TrendAt one row further on. |
| Pivots.NoRepaintAdvancesFill | indicators/Pivots/Pivots.cs:59-99 | Without a repaint the column already matches TrendAt one row further on. |
| Pivots.Repaint | indicators/Pivots/Pivots.cs:69-72 | Rows (from, to] get the trend in one column. The other column, dates and points are unchanged. |
| Pivots.EvaluateTrend | indicators/Pivots/Pivots.cs:59-99 | One polarity's block keeps its column equal to TrendAt and its reference equal to the last live point. It never touches the other column or the points, and writes only null cells. |
| Pivots.RollThrough | indicators/Pivots/Pivots.cs:36-100 | The whole loop leaves both columns equal to the closed-form labelling and the dates and points unchanged. |
| Pivots.RunPivots | indicators/Pivots/Pivots.cs:24-102 | Gives one row per fractal, in order, with date and points copied and both trend columns as the closed-form labelling. |
| Pivots.GetPivots | indicators/Pivots/Pivots.cs:12-103 | Fails iff ValidatePivots rejects, with its error. Otherwise returns PivotRows over rows [leftSpan, Count - rightSpan). |
| Alligator.MedianPrices | indicators/Alligator/Alligator.cs:46 | One median price per quote: (high + low) / 2. |
| Alligator.FirstSmmaWithinPriceRange | indicators/Alligator/Alligator.cs:55-63 | A line's first value, the window mean, lies between the least and greatest median price in the window. |
| Alligator.NextSmmaWithinPriceRange | indicators/Alligator/Alligator.cs:66-69 | A smoothed value stays in [lo, hi] when the previous value and the new median price do. |
| Alligator.SmmaWithinPriceRange | indicators/Alligator/Alligator.cs:55-69 | Every jaw, teeth or lips value lies between the min and max of the median prices it is built from. |
| Alligator.ValidateAlligator | indicators/Alligator/Alligator.cs:139-162 | No error iff there are at least 115 quotes; otherwise BadQuotes. |
| Alligator.SumWindow | indicators/Alligator/Alligator.cs:57-61 | The accumulator loop returns the sum of pr over the window. |
| Alligator.FillRow | indicators/Alligator/Alligator.cs:49-69 | Writing a line's final value into row i + offset moves its filled part on by one bar. |
| Alligator.FillNothing | indicators/Alligator/Alligator.cs:49-66 | A bar past the end or before the line's first value writes nothing and still moves the filled part on. |
| Alligator.SmoothLine | indicators/Alligator/Alligator.cs:48-70 | One line's block writes only row i + offset, with the SMA or SMMA value. Dates and the other two lines are unchanged. |
| Alligator.AddBar | indicators/Alligator/Alligator.cs:44-121 | One pass stores pr[i] and moves all three lines' filled parts on by one bar. |
| Alligator.GetAlligator | indicators/Alligator/Alligator.cs:11-125 | BadQuotes iff fewer than 115 quotes. Otherwise one row per quote with its date; jaw, teeth and lips are null before rows 20, 12 and 7, and LineAt after. |
| Slope.InterceptAt | indicators/Slope/Slope.cs:73 | The fitted line passes through (avgX, avgY). |
| Slope.SumXClosedForm | indicators/Slope/Slope.cs:44-50 | The x values of a window sum to count * (lo + hi + 1) / 2. |
| Slope.AvgXIsMidpoint | indicators/Slope/Slope.cs:44-52 | avgX = index - (lookback - 1) / 2. |
| Slope.SumSqXNonNegative | indicators/Slope/Slope.cs:60-67 | sumSqX is never negative. |
| Slope.SumSqXBoundsTerm | indicators/Slope/Slope.cs:60-67 | sumSqX is at least any one of its squared deviations. |
| Slope.SumSqXZeroIffSingleBar | indicators/Slope/Slope.cs:67-72 | The slope's denominator is zero iff the lookback is 1. |
| Slope.SumYOfLine | indicators/Slope/Slope.cs:44-50 | Closes lying on y = a x + b sum to a * sumX + count * b. |
| Slope.SumSqXYOfLine | indicators/Slope/Slope.cs:60-69 | For closes on a line of slope a, sumSqXY = a * sumSqX. |
| Slope.AvgYOfLine | indicators/Slope/Slope.cs:44-53 | For closes on a line, avgY = a * avgX + b. |
| Slope.FitReproducesLine | indicators/Slope/Slope.cs:60-73 | A window whose closes lie on y = a x + b gets slope a and intercept b. |
| Slope.FlatWindow | indicators/Slope/Slope.cs:65-73 | A window of equal closes c has slope 0 and intercept c. |
| Slope.ValidateSlope | indicators/Slope/Slope.cs:101-123 | ArgumentOutOfRange("lookbackPeriod") iff lookback <= 0. BadHistory iff there are fewer quotes than the lookback. Otherwise none. |
| Slope.WindowAverages | indicators/Slope/Slope.cs:40-53 | The first accumulator loop returns the window's mean x and mean close. |
| Slope.WindowDeviations | indicators/Slope/Slope.cs:55-70 | The second accumulator loop returns sumSqX and sumSqXY about those means. |
| Slope.WindowFit | indicators/Slope/Slope.cs:40-73 | DivideByZero iff the lookback is 1. Otherwise the window's least-squares slope and intercept. |
| Slope.DrawLastLine | indicators/Slope/Slope.cs:87-95 | Only the last lookbackPeriod rows get Line = slope * (p + 1) + intercept; every other row and field is kept. |
| Slope.GetSlope | indicators/Slope/Slope.cs:10-98 | The three errors each hold iff their condition does. On success: one row per quote with its date; slope and intercept null before a full window, the least-squares fit after; Line only on the last window, from the final fit. |

## Left out

- `Sort()` is not part of this model: quotes are taken to be in date order already.
- `GetFractal` and the `endType` argument of GetPivots are not part of this model. The fractal series is an input, and ValidatePivots counts one fractal row per quote.
- RemoveWarmupPeriods (indicators/Alligator/Alligator.cs:131-136) and the `Remove` helper it calls are not part of this model.
- Slope's StdDev and RSquared, and the sumSqY that feeds them (indicators/Slope/Slope.cs:57, 68, 75-84), are left out. They are computed in binary floating point with `Math.Sqrt`.
- C# `decimal` is modelled as exact `real`: its 28-digit rounding and its overflow are not modelled.
- Exceptions are modelled by kind and parameter name only. Their messages and the values they carry are not.
- ZigZag.GetZigZag: requires positive high, low and close prices. A zero first-bar price would make the source's probe ratios divide by zero, a case the model does not cover.
- ZigZag.ZigZagPoint.constructor: the source's point type strings ("U", "H", "L", null) are an enumeration here.
- The source's result rows are objects mutated through the list. Here they are values in a sequence field, replaced in place, because no row is aliased outside its list.
- Lazy `IEnumerable` evaluation is not modelled: results are returned as complete sequences.
