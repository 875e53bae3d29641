/** What one call of `PlottableSignal.Render` draws, as functions of the
    signal's fields and the plot settings. The methods of the class in
    plottable_signal.dfy are proved to compute exactly these traces. */
module SignalSpec {
  import opened Base
  import opened Casts
  import opened Extremes
  import opened Drawing

  /** The exceptions the renderer and the constructor can raise. */
  datatype Fault =
    | NullData          // "Y data cannot be null"
    | DivideByZero      // integer division by a zero data-area width
    | NegativeCapacity  // `new List<PointF>(capacity)` with capacity < 0

  /** The fields of a signal plottable that rendering reads. */
  datatype SignalData = SignalData(
    ys: seq<real>,
    samplePeriod: real,
    xOffset: real,
    yOffset: real,
    markerSize: real)

  /** The regime chosen once per render call, with the parameters its
      renderer is called with. */
  datatype RenderPlan =
    | SingleColumn
    | HighDensity(offsetPoints: real, columnPointCount: real)
    | LowDensity(visibleIndex1: int, visibleIndex2: int)

  // ---------------------------------------------------------------------
  // Classification

  /** Average number of samples per pixel column. */
  function ColumnPointCount(d: SignalData, s: Settings): (cpc: real)
    requires |d.ys| >= 1 && d.samplePeriod != 0.0 && s.dataWidth != 0
    ensures cpc == s.xAxisSpan / (s.dataWidth as real * d.samplePeriod)
  {
    var n := |d.ys| as real;
    var w := s.dataWidth as real;
    var dataSpanUnits := n * d.samplePeriod;
    var columnSpanUnits := s.xAxisSpan / w;
    assert (columnSpanUnits / dataSpanUnits) * n == s.xAxisSpan / (w * d.samplePeriod) by {
      assert columnSpanUnits * w == s.xAxisSpan;
      assert (columnSpanUnits / dataSpanUnits) * dataSpanUnits == columnSpanUnits;
    }
    (columnSpanUnits / dataSpanUnits) * n
  }

  /** Fractional sample index under the left edge of the x axis. */
  function OffsetPoints(d: SignalData, s: Settings): (r: real)
    requires d.samplePeriod != 0.0
    ensures d.samplePeriod * r + d.xOffset == s.axisXMin
  {
    (s.axisXMin - d.xOffset) / d.samplePeriod
  }

  /** The index of the sample under the left edge, truncated toward zero. */
  function VisibleIndex1(d: SignalData, s: Settings): (r: int)
    requires d.samplePeriod != 0.0
    ensures OffsetPoints(d, s) >= 0.0 ==> r as real <= OffsetPoints(d, s) < r as real + 1.0
    ensures OffsetPoints(d, s) < 0.0 ==> r as real - 1.0 < OffsetPoints(d, s) <= r as real
  {
    Trunc(OffsetPoints(d, s))
  }

  /** The index of the sample one column past the right edge (the left
      edge of column `Width + 1`), truncated toward zero. */
  function VisibleIndex2(d: SignalData, s: Settings): (r: int)
    requires |d.ys| >= 1 && d.samplePeriod != 0.0 && s.dataWidth != 0
    ensures var e := OffsetPoints(d, s) + ColumnPointCount(d, s) * (s.dataWidth + 1) as real;
      d.samplePeriod * e + d.xOffset == s.axisXMin + s.xAxisSpan * (s.dataWidth + 1) as real / s.dataWidth as real &&
      (e >= 0.0 ==> r as real <= e < r as real + 1.0) && (e < 0.0 ==> r as real - 1.0 < e <= r as real)
  {
    var w := s.dataWidth as real;
    var cpc := ColumnPointCount(d, s);
    assert d.samplePeriod * cpc == s.xAxisSpan / w by {
      assert cpc * (w * d.samplePeriod) == s.xAxisSpan;
    }
    assert d.samplePeriod * (cpc * (s.dataWidth + 1) as real) == s.xAxisSpan * (s.dataWidth + 1) as real / w;
    Trunc(OffsetPoints(d, s) + ColumnPointCount(d, s) * (s.dataWidth + 1) as real)
  }

  /** Horizontal pixel distance from the first sample to the last. */
  function DataWidthPx(d: SignalData, s: Settings): real
    requires |d.ys| >= 1
  {
    var n := |d.ys|;
    var firstPoint := s.GetPixel(d.xOffset, d.ys[0] + d.yOffset);
    var lastPoint := s.GetPixel(d.samplePeriod * (n - 1) as real + d.xOffset, d.ys[n - 1] + d.yOffset);
    lastPoint.x - firstPoint.x
  }

  /** The three-way dispatch of `Render`. The integer division that gives
      `pointsPerPixelColumn` is evaluated before the dispatch, so a zero
      width fails whatever the regime would have been. */
  function Classify(d: SignalData, s: Settings): Result<RenderPlan, Fault>
    requires |d.ys| >= 1 && d.samplePeriod != 0.0
  {
    if s.dataWidth == 0 then Failure(DivideByZero)
    else
      var visibleIndex1 := VisibleIndex1(d, s);
      var visibleIndex2 := VisibleIndex2(d, s);
      var pointsPerPixelColumn := TruncDiv(visibleIndex2 - visibleIndex1, s.dataWidth);
      if DataWidthPx(d, s) <= 1.0 then Success(SingleColumn)
      else if pointsPerPixelColumn > 1 then Success(HighDensity(OffsetPoints(d, s), ColumnPointCount(d, s)))
      else Success(LowDensity(visibleIndex1, visibleIndex2))
  }

  // ---------------------------------------------------------------------
  // Single-column regime

  ghost predicate IsLeast(s: seq<real>, v: real) {
    (forall k :: 0 <= k < |s| ==> v <= s[k]) && exists k :: 0 <= k < |s| && s[k] == v
  }

  ghost predicate IsGreatest(s: seq<real>, v: real) {
    (forall k :: 0 <= k < |s| ==> s[k] <= v) && exists k :: 0 <= k < |s| && s[k] == v
  }

  /** One vertical segment at `xOffset` from the global minimum to the
      global maximum. */
  function RenderSingleLine(d: SignalData, s: Settings): (draws: seq<Draw>)
    requires |d.ys| >= 1
    ensures |draws| == 1
    ensures exists lo, hi :: (IsLeast(d.ys, lo) && IsGreatest(d.ys, hi) &&
      draws[0] == Segment(s.GetPixel(d.xOffset, lo + d.yOffset), s.GetPixel(d.xOffset, hi + d.yOffset)))
  {
    var lo := RangeLowest(d.ys, 0, |d.ys|);
    var hi := RangeHighest(d.ys, 0, |d.ys|);
    RangeLowestIsLeast(d.ys, 0, |d.ys|);
    RangeHighestIsGreatest(d.ys, 0, |d.ys|);
    assert IsLeast(d.ys, lo) && IsGreatest(d.ys, hi);
    [Segment(s.GetPixel(d.xOffset, lo + d.yOffset), s.GetPixel(d.xOffset, hi + d.yOffset))]
  }

  // ---------------------------------------------------------------------
  // Low-density regime

  /** Data-space x coordinate of sample `i`. */
  function SampleX(samplePeriod: real, xOffset: real, i: int): real {
    samplePeriod * i as real + xOffset
  }

  /** The pixel of sample `i`. */
  function SamplePixel(d: SignalData, s: Settings, i: int): Pixel
    requires 0 <= i < |d.ys|
  {
    s.GetPixel(SampleX(d.samplePeriod, d.xOffset, i), d.ys[i] + d.yOffset)
  }

  /** The pixels of samples `first .. last`, both included, in index order. */
  function SamplePixels(d: SignalData, s: Settings, first: int, last: int): (points: seq<Pixel>)
    requires 0 <= first && (last < first || last < |d.ys|)
    ensures |points| == Max(0, last - first + 1)
    decreases last - first
  {
    if last < first then [] else SamplePixels(d, s, first, last - 1) + [SamplePixel(d, s, last)]
  }

  /** The `k`-th point is the pixel of sample `first + k`. */
  lemma {:induction false} SamplePixelsAt(d: SignalData, s: Settings, first: int, last: int)
    requires 0 <= first && (last < first || last < |d.ys|)
    ensures forall k :: 0 <= k < |SamplePixels(d, s, first, last)| ==>
      SamplePixels(d, s, first, last)[k] == SamplePixel(d, s, first + k)
    decreases last - first
  {
    if last >= first {
      SamplePixelsAt(d, s, first, last - 1);
    }
  }

  /** One marker per point, in the order of the points. */
  function Markers(points: seq<Pixel>, diameter: real): (marks: seq<Draw>)
    ensures |marks| == |points|
  {
    if points == [] then []
    else Markers(points[..|points| - 1], diameter) + [Marker(points[|points| - 1], diameter)]
  }

  /** The `k`-th marker is centred on the `k`-th point. */
  lemma {:induction false} MarkersAt(points: seq<Pixel>, diameter: real)
    ensures forall k :: 0 <= k < |points| ==> Markers(points, diameter)[k] == Marker(points[k], diameter)
  {
    if points != [] {
      var init := points[..|points| - 1];
      MarkersAt(init, diameter);
      forall k | 0 <= k < |init|
        ensures Markers(points, diameter)[k] == Marker(points[k], diameter)
      {
        assert init[k] == points[k];
      }
    }
  }

  /** Every visible sample, plus one past the window, joined by a polyline
      and marked; nothing when fewer than two points remain. The list
      capacity is computed from the window before it is clamped. */
  function LowDensityTrace(d: SignalData, s: Settings, visibleIndex1: int, visibleIndex2: int): Result<seq<Draw>, Fault>
    requires |d.ys| >= 1
  {
    if visibleIndex2 - visibleIndex1 + 2 < 0 then Failure(NegativeCapacity)
    else
      var last := Min(visibleIndex2, |d.ys| - 2);
      var first := Max(visibleIndex1, 0);
      Success(LowDensityDraws(SamplePixels(d, s, first, last + 1), d.markerSize))
  }

  /** The polyline and one marker per point, or nothing for fewer than two
      points. */
  function LowDensityDraws(linePoints: seq<Pixel>, markerSize: real): seq<Draw> {
    if |linePoints| > 1 then [Polyline(linePoints)] + Markers(linePoints, markerSize) else []
  }

  /** Unfolds LowDensityTrace for a caller that has built the points of
      the clamped window itself. */
  lemma LowDensityTraceOfPoints(d: SignalData, s: Settings, visibleIndex1: int, visibleIndex2: int,
                                first: int, last: int, linePoints: seq<Pixel>, draws: seq<Draw>)
    requires |d.ys| >= 1 && visibleIndex2 - visibleIndex1 + 2 >= 0
    requires first == Max(visibleIndex1, 0) && last == Min(visibleIndex2, |d.ys| - 2)
    requires linePoints == SamplePixels(d, s, first, last + 1)
    requires draws == LowDensityDraws(linePoints, d.markerSize)
    ensures LowDensityTrace(d, s, visibleIndex1, visibleIndex2) == Success(draws)
  {
  }

  // ---------------------------------------------------------------------
  // High-density regime

  /** The sample index under the left edge of pixel column `xPx`, before
      clamping; column `xPx` scans from `RawIndex(.., xPx)` to
      `RawIndex(.., xPx + 1)`. */
  function RawIndex(offsetPoints: real, columnPointCount: real, xPx: int): int {
    Trunc(offsetPoints + columnPointCount * xPx as real)
  }

  datatype Window = Window(index1: int, index2: int)

  /** The index window of a column after the skip test and the clamping;
      `None` for a skipped column. */
  function ColumnWindow(n: int, offsetPoints: real, columnPointCount: real, xPx: int): (w: Option<Window>)
    requires n >= 1
    ensures w.None? <==>
      RawIndex(offsetPoints, columnPointCount, xPx + 1) < 0 || RawIndex(offsetPoints, columnPointCount, xPx) > n - 1
    ensures w.Some? ==> 0 <= w.value.index1 <= n - 1 && 0 <= w.value.index2 <= n - 1
    ensures w.Some? && columnPointCount >= 0.0 ==> w.value.index1 <= w.value.index2
  {
    var index1 := RawIndex(offsetPoints, columnPointCount, xPx);
    var index2 := RawIndex(offsetPoints, columnPointCount, xPx + 1);
    if index2 < 0 || index1 > n - 1 then None
    else
      assert columnPointCount >= 0.0 ==> index1 <= index2 by {
        if columnPointCount >= 0.0 {
          assert columnPointCount * (xPx + 1) as real == columnPointCount * xPx as real + columnPointCount;
          TruncMonotone(offsetPoints + columnPointCount * xPx as real,
                        offsetPoints + columnPointCount * (xPx + 1) as real);
        }
      }
      Some(Window(if index1 < 0 then 0 else index1, if index2 > n - 1 then n - 1 else index2))
  }

  /** The skip test of the renderer, on the unclamped indexes. */
  lemma ColumnSkipped(n: int, offsetPoints: real, columnPointCount: real, xPx: int)
    requires n >= 1
    requires RawIndex(offsetPoints, columnPointCount, xPx + 1) < 0 || RawIndex(offsetPoints, columnPointCount, xPx) > n - 1
    ensures ColumnWindow(n, offsetPoints, columnPointCount, xPx) == None
  {
  }

  /** The clamping of the renderer, on the indexes of a drawn column. */
  lemma ColumnClamped(n: int, offsetPoints: real, columnPointCount: real, xPx: int, w: Window)
    requires n >= 1
    requires RawIndex(offsetPoints, columnPointCount, xPx + 1) >= 0 && RawIndex(offsetPoints, columnPointCount, xPx) <= n - 1
    requires w.index1 == Max(RawIndex(offsetPoints, columnPointCount, xPx), 0)
    requires w.index2 == Min(RawIndex(offsetPoints, columnPointCount, xPx + 1), n - 1)
    ensures ColumnWindow(n, offsetPoints, columnPointCount, xPx) == Some(w)
  {
  }

  /** Pixel row of the column's highest value (called `yPxLow` in the
      renderer: rows grow downward). */
  function YPxLow(d: SignalData, s: Settings, w: Window): real
    requires 0 <= w.index1 < |d.ys| && w.index2 <= |d.ys|
  {
    s.GetPixel(0.0, RangeHighest(d.ys, w.index1, w.index2) + d.yOffset).y
  }

  /** Pixel row of the column's lowest value (called `yPxHigh`). */
  function YPxHigh(d: SignalData, s: Settings, w: Window): real
    requires 0 <= w.index1 < |d.ys| && w.index2 <= |d.ys|
  {
    s.GetPixel(0.0, RangeLowest(d.ys, w.index1, w.index2) + d.yOffset).y
  }

  /** The anti-aliasing order rule: append the column's two points, the
      `yPxLow` one first exactly when fewer than two points exist yet or it
      lies above the last point. */
  function AppendColumn(points: seq<Pixel>, x: real, yPxLow: real, yPxHigh: real): (r: seq<Pixel>)
    ensures |r| == |points| + 2
    ensures forall k :: 0 <= k < |points| ==> r[k] == points[k]
    ensures r[|points|].x == x && r[|points| + 1].x == x
    ensures r[|points|].y == if |points| < 2 || yPxLow < points[|points| - 1].y then yPxLow else yPxHigh
  {
    if |points| < 2 || yPxLow < points[|points| - 1].y then
      points + [Pixel(x, yPxLow), Pixel(x, yPxHigh)]
    else
      points + [Pixel(x, yPxHigh), Pixel(x, yPxLow)]
  }

  /** Whatever the order, a column contributes exactly its two points. */
  lemma AppendColumnPair(points: seq<Pixel>, x: real, yPxLow: real, yPxHigh: real)
    ensures AppendColumn(points, x, yPxLow, yPxHigh)[..|points|] == points
    ensures multiset(AppendColumn(points, x, yPxLow, yPxHigh)[|points|..]) == multiset{Pixel(x, yPxLow), Pixel(x, yPxHigh)}
  {
    var r := AppendColumn(points, x, yPxLow, yPxHigh);
    if |points| < 2 || yPxLow < points[|points| - 1].y {
      assert r[|points|..] == [Pixel(x, yPxLow), Pixel(x, yPxHigh)];
    } else {
      assert r[|points|..] == [Pixel(x, yPxHigh), Pixel(x, yPxLow)];
    }
  }

  /** What column `xPx` adds to the accumulated points. */
  function ColumnStep(d: SignalData, s: Settings, offsetPoints: real, columnPointCount: real,
                      points: seq<Pixel>, xPx: int): seq<Pixel>
    requires |d.ys| >= 1
  {
    match ColumnWindow(|d.ys|, offsetPoints, columnPointCount, xPx)
    case None => points
    case Some(w) => AppendColumn(points, xPx as real, YPxLow(d, s, w), YPxHigh(d, s, w))
  }

  /** The points accumulated over pixel columns `0 .. columns - 1`. */
  function HighDensityPoints(d: SignalData, s: Settings, offsetPoints: real, columnPointCount: real,
                             columns: nat): seq<Pixel>
    requires |d.ys| >= 1
  {
    if columns == 0 then []
    else ColumnStep(d, s, offsetPoints, columnPointCount,
                    HighDensityPoints(d, s, offsetPoints, columnPointCount, columns - 1), columns - 1)
  }

  /** Unfolds ColumnStep for a caller that has computed a drawn column's
      window and extremes itself. */
  lemma ColumnStepOfExtremes(d: SignalData, s: Settings, offsetPoints: real, columnPointCount: real,
                             before: seq<Pixel>, xPx: int, w: Window,
                             lowestValue: real, highestValue: real, yPxLow: real, yPxHigh: real,
                             after: seq<Pixel>)
    requires |d.ys| >= 1
    requires ColumnWindow(|d.ys|, offsetPoints, columnPointCount, xPx) == Some(w)
    requires lowestValue == RangeLowest(d.ys, w.index1, w.index2)
    requires highestValue == RangeHighest(d.ys, w.index1, w.index2)
    requires yPxLow == s.GetPixel(0.0, highestValue + d.yOffset).y
    requires yPxHigh == s.GetPixel(0.0, lowestValue + d.yOffset).y
    requires after == AppendColumn(before, xPx as real, yPxLow, yPxHigh)
    ensures after == ColumnStep(d, s, offsetPoints, columnPointCount, before, xPx)
  {
    assert yPxLow == YPxLow(d, s, w) && yPxHigh == YPxHigh(d, s, w);
  }

  /** How many of the columns `0 .. columns - 1` are not skipped. */
  function DrawnColumns(n: int, offsetPoints: real, columnPointCount: real, columns: nat): nat
    requires n >= 1
  {
    if columns == 0 then 0
    else DrawnColumns(n, offsetPoints, columnPointCount, columns - 1)
         + (if ColumnWindow(n, offsetPoints, columnPointCount, columns - 1).Some? then 1 else 0)
  }

  /** One polyline through the two points of every column that is not
      skipped; nothing when every column is skipped. */
  function HighDensityTrace(d: SignalData, s: Settings, offsetPoints: real, columnPointCount: real): Result<seq<Draw>, Fault>
    requires |d.ys| >= 1
  {
    if s.dataWidth * 2 + 1 < 0 then Failure(NegativeCapacity)
    else
      var linePoints := HighDensityPoints(d, s, offsetPoints, columnPointCount, s.dataWidth);
      Success(if |linePoints| > 0 then [Polyline(linePoints)] else [])
  }

  // ---------------------------------------------------------------------
  // Render

  function RenderTrace(d: SignalData, s: Settings): Result<seq<Draw>, Fault>
    requires |d.ys| >= 1 && d.samplePeriod != 0.0
  {
    match Classify(d, s)
    case Failure(f) => Failure(f)
    case Success(plan) =>
      match plan
      case SingleColumn => Success(RenderSingleLine(d, s))
      case HighDensity(offsetPoints, columnPointCount) => HighDensityTrace(d, s, offsetPoints, columnPointCount)
      case LowDensity(visibleIndex1, visibleIndex2) => LowDensityTrace(d, s, visibleIndex1, visibleIndex2)
  }
}
