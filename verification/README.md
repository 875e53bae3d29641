# PlottableSignal: a verified model of ScottPlot's adaptive signal renderer

ScottPlot's `PlottableSignal` draws a uniformly sampled series `ys` (sample
period `1 / sampleRate`, shifted by `xOffset` and `yOffset`). On every
`Render` call it picks one of three strategies from the zoom level:

- **single line**: all the data falls within one pixel column, so one
  vertical segment from the global minimum to the global maximum is drawn;
- **high density**: the integer quotient of the visible index count
  `visibleIndex2 - visibleIndex1` by the data-area width `Width` exceeds 1.
  For a positive width, at least `2 * Width` sample indexes lie in the
  window, which spans `Width + 1` columns. Each drawn column is reduced to
  its minimum and maximum (`MinMaxRangeQuery`). Two points per column go
  into one polyline, in an order chosen to improve anti-aliasing;
- **low density**: every visible sample, plus one sample past the window,
  becomes a point. With at least two points, the polyline through them is
  drawn and each point gets a marker; with fewer, nothing is drawn.

The model has these parts:

- `base.dfy` (module `Base`): `Option`, `Result`, `Min`, `Max`.
- `casts.dfy` (module `Casts`): the C# `(int)` cast of a double, `Trunc`,
  which truncates toward zero; and C# integer division, `TruncDiv`.
- `extremes.dfy` (module `Extremes`): the values the range reducer
  computes, as recursive functions with their lemmas.
- `drawing.dfy` (module `Drawing`): the collaborators.
  - `Settings` carries the axis left edge, the visible span, the width of
    the data area in pixels and the coordinate mapper `GetPixel`. The
    mapper is an arbitrary function supplied by the caller.
  - The drawing surface is replaced by the returned sequence of primitives
    (`Segment`, `Polyline`, `Marker`), in call order.
- `signal_spec.dfy` (module `SignalSpec`): what one render call draws, as
  functions of the signal's fields and the settings.
  - Exceptions become `Failure(Fault)`: `NullData`, `DivideByZero` and
    `NegativeCapacity`.
- `plottable_signal.dfy` (module `Signal`): the class `PlottableSignal`.
  - Its fields are those of the source; `ys` is an array.
  - `MinMaxRangeQuery`, the two renderers, their loops and `GetLimits` are
    methods. `GetLimits` states the bounds directly; each of the others is
    proved to compute exactly the matching function of `SignalSpec` or
    `Extremes`.
- `signal_properties.dfy` (module `SignalProperties`): the promises, as
  lemmas over those functions. They cover:
  - which regime a call takes;
  - point and draw counts;
  - where the points lie;
  - when a call cannot fail;
  - that every sample under the plotted columns except the last one,
    `N - 1`, is bracketed by its column's extremes.

Details of the code that the model reproduces:

- **Casts truncate.** The `(int)` casts truncate toward zero rather than
  flooring, so a window that starts left of the data gets index 0 down to
  an offset of -1.
- **Integer quotient.** The high-density test compares the integer quotient
  `(visibleIndex2 - visibleIndex1) / Width` with 1. For a positive width
  that means `visibleIndex2 - visibleIndex1 >= 2 * Width`.
- **Clamping.** The low-density window is clamped only below for
  `visibleIndex1` and only above for `visibleIndex2`, so the point count is
  `Max(0, Min(v2, N - 2) - Max(v1, 0) + 2)`.
- **List capacity.** The list capacity is computed before clamping. A
  negative capacity makes `new List<PointF>` throw (`NegativeCapacity`).
- **Zero width.** A data area of width 0 makes the integer division throw
  before anything is drawn (`DivideByZero`).
- **Last sample.** In the high-density regime, `index2` is clamped to
  `N - 1` while the scan excludes `index2`. So the last sample is compared
  only when a column's scan is seeded with it (see `SampleCovered`).

## Model

| member | source | states |
|---|---|---|
| Signal.PlottableSignal.constructor | src/ScottPlot/plottables/PlottableSignal.cs:21-35 | stores the data and offsets; `samplePeriod * sampleRate == 1`, the period is positive; `pointCount == ys.Length` |
| Signal.PlottableSignal.Create | src/ScottPlot/plottables/PlottableSignal.cs:21-35 | a null data array is rejected with `NullData` (and only then); otherwise a fresh signal holding exactly that array, its sample rate, offsets and marker size, period `1 / sampleRate`, `pointCount == ys.Length` |
| Signal.PlottableSignal.GetLimits | src/ScottPlot/plottables/PlottableSignal.cs:51-59 | a new four-element array: `xOffset`, `samplePeriod * N + xOffset`, then a lower and upper bound of every `ys[i] + yOffset`, each attained by some sample; x limits ordered when the period is non-negative |
| Signal.PlottableSignal.MinMaxRangeQuery | src/ScottPlot/plottables/PlottableSignal.cs:132-143 | the loop computes exactly `RangeLowest`/`RangeHighest` of the window; min <= max; both bound every `ys[k]` with `index1 <= k < ScanEnd` and are attained there |
| Extremes.ScanEnd | src/ScottPlot/plottables/PlottableSignal.cs:134-136 | the scanned indexes end at `index2`, or just after the seed when the range is empty |
| Extremes.RangeLowest | src/ScottPlot/plottables/PlottableSignal.cs:134-142 | the running minimum of the scan seeded with `ys[index1]`; its bounds and attainment are stated by `RangeLowestIsLeast` |
| Extremes.RangeHighest | src/ScottPlot/plottables/PlottableSignal.cs:134-142 | the running maximum of the same scan; stated by `RangeHighestIsGreatest` |
| Extremes.RangeLowestIsLeast | src/ScottPlot/plottables/PlottableSignal.cs:134-142 | the running minimum is at most every compared sample (the seed included) and equals one of them |
| Extremes.RangeHighestIsGreatest | src/ScottPlot/plottables/PlottableSignal.cs:134-142 | the running maximum is at least every compared sample and equals one of them |
| Extremes.LowestAtMostHighest | src/ScottPlot/plottables/PlottableSignal.cs:134-142 | over the same window the minimum never exceeds the maximum |
| Extremes.ExtremesAreLocal | src/ScottPlot/plottables/PlottableSignal.cs:136 | the results depend only on `ys[index1 .. ScanEnd)`: `ys[index2]` and later samples are never compared |
| Casts.Trunc | src/ScottPlot/plottables/PlottableSignal.cs:98-99 | `(int)` of a double: the integer within 1 of it on the side of zero |
| Casts.TruncMonotone | src/ScottPlot/plottables/PlottableSignal.cs:98-99 | truncation preserves `<=` |
| Casts.TruncDiv | src/ScottPlot/plottables/PlottableSignal.cs:155 | C# `int / int`: the remainder has the dividend's sign and is smaller than the divisor in magnitude |
| Casts.TruncDivExceedsOne | src/ScottPlot/plottables/PlottableSignal.cs:155-163 | for a positive divisor, `pointsPerPixelColumn > 1` holds exactly when the dividend is at least twice the divisor |
| Casts.TruncDivExceedsOneNegative | src/ScottPlot/plottables/PlottableSignal.cs:155-163 | for a negative divisor, exactly when the dividend is at most twice the divisor |
| SignalSpec.ColumnPointCount | src/ScottPlot/plottables/PlottableSignal.cs:147-149 | the samples-per-column ratio computed through the data and column spans equals `xAxisSpan / (Width * samplePeriod)` |
| SignalSpec.OffsetPoints | src/ScottPlot/plottables/PlottableSignal.cs:150-151 | the fractional sample index whose x coordinate is the axis's left edge: `samplePeriod * offsetPoints + xOffset == axis[0]` |
| SignalSpec.VisibleIndex1 | src/ScottPlot/plottables/PlottableSignal.cs:152 | `offsetPoints` truncated toward zero: within 1 of it, on the side of zero |
| SignalSpec.VisibleIndex2 | src/ScottPlot/plottables/PlottableSignal.cs:153 | the fractional index one column past the right edge, whose x is `axis[0] + xAxisSpan * (Width + 1) / Width`, truncated toward zero |
| SignalSpec.DataWidthPx | src/ScottPlot/plottables/PlottableSignal.cs:157-159 | the horizontal pixel distance from the first sample's pixel to the last's; the single-line test reads it (`ClassifyRegime`) |
| SignalSpec.Classify | src/ScottPlot/plottables/PlottableSignal.cs:152-166 | the regime of a call: `DivideByZero` for a zero width, else single line, high density or low density by the tests at :161 and :163; its cases are stated by `ClassifyRegime`, `ClassifyPositiveWidth` and `ClassifyNegativeWidth` |
| SignalSpec.RenderTrace | src/ScottPlot/plottables/PlottableSignal.cs:161-166 | the draws of one call: the trace of the regime `Classify` picks, or its fault; `RenderSucceeds` states when it cannot fail and `Render` is proved to produce it |
| SignalProperties.ClassifyRegime | src/ScottPlot/plottables/PlottableSignal.cs:145-166 | `DivideByZero` iff Width is 0 (the integer division at :155 runs before any drawing); otherwise single line iff `dataWidthPx <= 1` |
| SignalProperties.ClassifyPositiveWidth | src/ScottPlot/plottables/PlottableSignal.cs:152-166 | positive Width: high density (with `offsetPoints`, `columnPointCount`) iff wider than one pixel and `visibleIndex2 - visibleIndex1 >= 2 * Width`; low density (with the two visible indexes) iff wider than one pixel and fewer are visible |
| SignalProperties.ClassifyNegativeWidth | src/ScottPlot/plottables/PlottableSignal.cs:152-166 | negative Width: high density iff wider than one pixel and `visibleIndex2 - visibleIndex1 <= 2 * Width`; low density otherwise past the single-line test |
| SignalProperties.RenderSucceeds | src/ScottPlot/plottables/PlottableSignal.cs:145-166 | positive period, positive Width and non-negative span: no exception in any regime |
| Signal.PlottableSignal.Render | src/ScottPlot/plottables/PlottableSignal.cs:145-166 | the call produces exactly the trace of the regime `Classify` picks |
| SignalSpec.RenderSingleLine | src/ScottPlot/plottables/PlottableSignal.cs:61-68 | exactly one segment, from the pixel of `(xOffset, min ys + yOffset)` to that of `(xOffset, max ys + yOffset)` |
| Signal.PlottableSignal.RenderLowDensity | src/ScottPlot/plottables/PlottableSignal.cs:70-88 | the method's draws (or its exception) are exactly `LowDensityTrace` of the signal |
| Signal.PlottableSignal.SamplePoints | src/ScottPlot/plottables/PlottableSignal.cs:79-80 | the loop collects exactly `SamplePixels` of the clamped window |
| Signal.PlottableSignal.MarkerDraws | src/ScottPlot/plottables/PlottableSignal.cs:85-86 | the loop issues exactly `Markers` of the points, one per point |
| SignalSpec.SamplePixels | src/ScottPlot/plottables/PlottableSignal.cs:79-80 | one point per index of `first .. last` |
| SignalSpec.SamplePixelsAt | src/ScottPlot/plottables/PlottableSignal.cs:79-80 | point `k` is the pixel of `(samplePeriod * (first + k) + xOffset, ys[first + k] + yOffset)` |
| SignalSpec.Markers | src/ScottPlot/plottables/PlottableSignal.cs:85-86 | as many markers as points |
| SignalSpec.MarkersAt | src/ScottPlot/plottables/PlottableSignal.cs:85-86 | marker `k` is centred on point `k` with the signal's marker size |
| SignalSpec.LowDensityTrace | src/ScottPlot/plottables/PlottableSignal.cs:70-88 | `NegativeCapacity` from the unclamped capacity, otherwise the draws of the clamped window's points; stated by `LowDensityFails` and `LowDensityShape` |
| SignalSpec.LowDensityDraws | src/ScottPlot/plottables/PlottableSignal.cs:82-87 | the polyline then the markers, or nothing below two points; stated by `LowDensityDrawsShape` |
| SignalProperties.LowDensityFails | src/ScottPlot/plottables/PlottableSignal.cs:74 | the per-sample renderer fails exactly when `v2 - v1 + 2 < 0`, with `NegativeCapacity` |
| SignalProperties.LowDensityShape | src/ScottPlot/plottables/PlottableSignal.cs:74-87 | it visits exactly `Max(v1, 0) .. Min(v2, N - 2) + 1`, all inside the data; the count is `Max(0, Min(v2, N - 2) - Max(v1, 0) + 2)`; the draws are made from those points |
| SignalProperties.LowDensityDrawsShape | src/ScottPlot/plottables/PlottableSignal.cs:82-87 | fewer than two points: nothing; otherwise the polyline through all points, then one marker per point in order |
| SignalSpec.RawIndex | src/ScottPlot/plottables/PlottableSignal.cs:98-99 | the unclamped, truncated sample index under a column's left edge; column `xPx` spans `RawIndex(xPx) .. RawIndex(xPx + 1)`, which `ColumnOfIndex` shows tile the range |
| SignalSpec.YPxLow | src/ScottPlot/plottables/PlottableSignal.cs:113 | the pixel row of the column's highest value; `DrawnColumnReads` shows it is the row of a scanned sample |
| SignalSpec.YPxHigh | src/ScottPlot/plottables/PlottableSignal.cs:112 | the pixel row of the column's lowest value; `DrawnColumnReads` shows it is the row of a scanned sample |
| SignalSpec.ColumnStep | src/ScottPlot/plottables/PlottableSignal.cs:97-125 | one column's iteration: nothing for a skipped column, otherwise `AppendColumn` with its two rows; `AppendColumnPoints` is proved to compute it |
| SignalSpec.HighDensityPoints | src/ScottPlot/plottables/PlottableSignal.cs:94-126 | the points after columns `0 .. c - 1`; their layout is stated by `HighDensityPointsShape` |
| SignalSpec.HighDensityTrace | src/ScottPlot/plottables/PlottableSignal.cs:90-130 | `NegativeCapacity` for a negative capacity, otherwise one polyline of those points when there is any; stated by `HighDensityTraceShape` |
| Signal.PlottableSignal.RenderHighDensity | src/ScottPlot/plottables/PlottableSignal.cs:90-130 | the method's draws (or its exception) are exactly `HighDensityTrace` of the signal |
| Signal.PlottableSignal.AppendColumnPoints | src/ScottPlot/plottables/PlottableSignal.cs:97-125 | one loop iteration adds exactly what `ColumnStep` adds for column `xPx` |
| SignalSpec.ColumnWindow | src/ScottPlot/plottables/PlottableSignal.cs:98-107 | a column is skipped iff `index2 < 0 \|\| index1 > N - 1` (unclamped); a drawn column's clamped indexes lie in `[0, N - 1]` and are ordered when `columnPointCount >= 0` |
| SignalProperties.DrawnColumnReads | src/ScottPlot/plottables/PlottableSignal.cs:98-113 | a drawn column reads only inside `[0, N - 1]`; its window is not inverted when `columnPointCount >= 0`; its two rows are the pixel rows of samples in its scan |
| SignalSpec.AppendColumn | src/ScottPlot/plottables/PlottableSignal.cs:115-125 | two points are added after the existing ones, both at x = `xPx`; the first is `yPxLow` exactly when fewer than two points exist or `yPxLow` is above the last point, `yPxHigh` otherwise |
| SignalSpec.AppendColumnPair | src/ScottPlot/plottables/PlottableSignal.cs:115-125 | whatever the order, the column contributes exactly the multiset `{(xPx, yPxLow), (xPx, yPxHigh)}` and keeps the earlier points |
| SignalProperties.AppendColumnPaired | src/ScottPlot/plottables/PlottableSignal.cs:95-125 | appending column `xPx` after columns `0 .. xPx - 1` keeps points paired by x, x in range and x non-decreasing |
| SignalProperties.HighDensityPointsShape | src/ScottPlot/plottables/PlottableSignal.cs:95-126 | after `c` columns there are `2 *` (drawn columns) `<= 2 * c` points, paired by x, x non-decreasing; every x is a whole number, the index of a column below `c` that is not skipped |
| SignalProperties.AppendColumnOnDrawn | src/ScottPlot/plottables/PlottableSignal.cs:101-125 | after appending drawn column `xPx`, every point's x is still the index of a drawn column, now below `xPx + 1` |
| SignalProperties.HighDensityTraceShape | src/ScottPlot/plottables/PlottableSignal.cs:94-129 | fails iff the capacity `2 * Width + 1` is negative; otherwise at most one polyline, drawn iff some column is drawn, with `2 *` (drawn columns) `<= 2 * Width` points |
| SignalProperties.ColumnOfIndex | src/ScottPlot/plottables/PlottableSignal.cs:98-99 | consecutive raw column windows meet end to end: each index between the first left edge and the last right edge falls in one of them |
| SignalProperties.SampleCovered | src/ScottPlot/plottables/PlottableSignal.cs:95-142 | every sample below the last under the plotted columns is scanned by a drawn column and lies between its extremes |

## Left out

- `SaveCSV` (file output and number formatting) is not modelled.
- `Pen`/`Brush`/colour/label construction and styling are not modelled.
- The ellipse geometry passed to `FillEllipse` is not modelled. A marker
  is recorded as its centre and diameter.
- The `(float)` casts and `float`/`double` rounding are not modelled: all
  coordinates and values are exact reals. NaN and infinities are not
  modelled either.
- 32-bit overflow of the `int` casts and of index arithmetic
  (`Width * 2 + 1`, `visibleIndex2 - visibleIndex1`) is not modelled:
  integers are unbounded.
- `settings.GetPixel` is an arbitrary caller-supplied function. The
  graphics surface is replaced by the returned trace. The rest of
  `Settings` and the base class `Plottable` are not part of this model.
- The empty data array is not modelled: `ys.Min()`, `ys.Max()` and
  `ys.First()` throw on it, so every render member and `GetLimits`
  require `N >= 1`.
- A non-positive `sampleRate` is not modelled: the source does not check
  it, so the constructor requires it to be positive.
- `MinMaxRangeQuery` is `virtual` in the source. Overrides in subclasses
  are not modelled.
- `ToString` is not modelled.
- Concurrent use of one signal is not modelled.
