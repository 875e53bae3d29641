/** What the renderer promises, stated over the traces of SignalSpec:
    which regime a call takes, how many points and draws each regime
    produces, where they lie, and when a call cannot fail. */
module SignalProperties {
  import opened Base
  import opened Casts
  import opened Extremes
  import opened Drawing
  import opened SignalSpec

  // ---------------------------------------------------------------------
  // Regime choice

  /** Exactly one outcome per call: a zero data-area width fails with the
      integer division; otherwise the single-column renderer runs exactly
      when the data spans at most one pixel. */
  lemma ClassifyRegime(d: SignalData, s: Settings)
    requires |d.ys| >= 1 && d.samplePeriod != 0.0
    ensures Classify(d, s).Failure? <==> s.dataWidth == 0
    ensures Classify(d, s).Failure? ==> Classify(d, s).error == DivideByZero
    ensures s.dataWidth != 0 ==> (Classify(d, s) == Success(SingleColumn) <==> DataWidthPx(d, s) <= 1.0)
  {
  }

  /** For a positive width, past the single-column test the decimated
      renderer runs exactly when the integer quotient
      `(visibleIndex2 - visibleIndex1) / Width` exceeds 1, that is when at
      least `2 * Width` samples are visible, and the per-sample renderer
      runs otherwise. */
  lemma ClassifyPositiveWidth(d: SignalData, s: Settings)
    requires |d.ys| >= 1 && d.samplePeriod != 0.0 && s.dataWidth > 0
    ensures Classify(d, s) == Success(HighDensity(OffsetPoints(d, s), ColumnPointCount(d, s))) <==>
      DataWidthPx(d, s) > 1.0 && VisibleIndex2(d, s) - VisibleIndex1(d, s) >= 2 * s.dataWidth
    ensures Classify(d, s) == Success(LowDensity(VisibleIndex1(d, s), VisibleIndex2(d, s))) <==>
      DataWidthPx(d, s) > 1.0 && VisibleIndex2(d, s) - VisibleIndex1(d, s) < 2 * s.dataWidth
  {
    TruncDivExceedsOne(VisibleIndex2(d, s) - VisibleIndex1(d, s), s.dataWidth);
  }

  /** For a negative width the quotient exceeds 1 exactly when at most
      `2 * Width` samples are visible. */
  lemma ClassifyNegativeWidth(d: SignalData, s: Settings)
    requires |d.ys| >= 1 && d.samplePeriod != 0.0 && s.dataWidth < 0
    ensures Classify(d, s) == Success(HighDensity(OffsetPoints(d, s), ColumnPointCount(d, s))) <==>
      DataWidthPx(d, s) > 1.0 && VisibleIndex2(d, s) - VisibleIndex1(d, s) <= 2 * s.dataWidth
    ensures Classify(d, s) == Success(LowDensity(VisibleIndex1(d, s), VisibleIndex2(d, s))) <==>
      DataWidthPx(d, s) > 1.0 && VisibleIndex2(d, s) - VisibleIndex1(d, s) > 2 * s.dataWidth
  {
    TruncDivExceedsOneNegative(VisibleIndex2(d, s) - VisibleIndex1(d, s), s.dataWidth);
  }

  /** With a positive sample period, a positive data-area width and a
      non-negative visible span, a render call raises nothing: the ratio of
      samples per column is non-negative, so the visible window is not
      inverted and every list capacity is non-negative. */
  lemma RenderSucceeds(d: SignalData, s: Settings)
    requires |d.ys| >= 1 && d.samplePeriod > 0.0
    requires s.dataWidth > 0 && s.xAxisSpan >= 0.0
    ensures RenderTrace(d, s).Success?
  {
    var w := s.dataWidth as real;
    assert w * d.samplePeriod > 0.0;
    var cpc := ColumnPointCount(d, s);
    assert cpc >= 0.0;
    assert cpc * (s.dataWidth + 1) as real >= 0.0;
    TruncMonotone(OffsetPoints(d, s), OffsetPoints(d, s) + cpc * (s.dataWidth + 1) as real);
  }

  // ---------------------------------------------------------------------
  // Per-sample regime

  /** The per-sample renderer fails exactly when the list capacity, taken
      from the window before it is clamped, is negative. */
  lemma LowDensityFails(d: SignalData, s: Settings, visibleIndex1: int, visibleIndex2: int)
    requires |d.ys| >= 1
    ensures LowDensityTrace(d, s, visibleIndex1, visibleIndex2).Failure? <==> visibleIndex2 - visibleIndex1 + 2 < 0
    ensures LowDensityTrace(d, s, visibleIndex1, visibleIndex2).Failure? ==>
      LowDensityTrace(d, s, visibleIndex1, visibleIndex2).error == NegativeCapacity
  {
  }

  /** Otherwise it visits exactly the samples `Max(v1, 0) .. Min(v2, N - 2) + 1`,
      all inside the data, so that the number of points is
      `Max(0, Min(v2, N - 2) - Max(v1, 0) + 2)`, and it draws what
      LowDensityDraws makes of those points. */
  lemma LowDensityShape(d: SignalData, s: Settings, visibleIndex1: int, visibleIndex2: int)
    requires |d.ys| >= 1 && visibleIndex2 - visibleIndex1 + 2 >= 0
    ensures var first := Max(visibleIndex1, 0);
      var count := Max(0, Min(visibleIndex2, |d.ys| - 2) - first + 2);
      var linePoints := SamplePixels(d, s, first, first + count - 1);
      (count > 0 ==> first + count <= |d.ys|) &&
      |linePoints| == count &&
      LowDensityTrace(d, s, visibleIndex1, visibleIndex2) == Success(LowDensityDraws(linePoints, d.markerSize))
  {
    var first := Max(visibleIndex1, 0);
    var last := Min(visibleIndex2, |d.ys| - 2);
    var count := Max(0, last - first + 2);
    if count == 0 {
      assert SamplePixels(d, s, first, first + count - 1) == [] == SamplePixels(d, s, first, last + 1);
    } else {
      assert first + count - 1 == last + 1;
    }
  }

  /** The per-sample draws: with at least two points, the polyline through
      them followed by one marker per point, in order; nothing otherwise. */
  lemma LowDensityDrawsShape(linePoints: seq<Pixel>, markerSize: real)
    ensures |linePoints| < 2 ==> LowDensityDraws(linePoints, markerSize) == []
    ensures |linePoints| >= 2 ==>
      var draws := LowDensityDraws(linePoints, markerSize);
      |draws| == |linePoints| + 1 && draws[0] == Polyline(linePoints) &&
      forall k :: 1 <= k < |draws| ==> draws[k] == Marker(linePoints[k - 1], markerSize)
  {
    if |linePoints| >= 2 {
      var draws := LowDensityDraws(linePoints, markerSize);
      var marks := Markers(linePoints, markerSize);
      MarkersAt(linePoints, markerSize);
      assert draws == [Polyline(linePoints)] + marks;
      forall k | 1 <= k < |draws|
        ensures draws[k] == Marker(linePoints[k - 1], markerSize)
      {
        assert draws[k] == marks[k - 1];
      }
    }
  }

  // ---------------------------------------------------------------------
  // Decimated regime

  /** Points laid out as the decimated renderer lays them out: in pairs
      sharing an x, with x in `[0, bound)` and never decreasing along the
      list. */
  ghost predicate PairedColumns(points: seq<Pixel>, bound: real) {
    |points| % 2 == 0 &&
    (forall k :: 0 <= k < |points| ==> 0.0 <= points[k].x < bound) &&
    (forall i, j :: 0 <= i <= j < |points| ==> points[i].x <= points[j].x) &&
    (forall k :: 0 <= k < |points| && k % 2 == 0 ==> k + 1 < |points| && points[k + 1].x == points[k].x)
  }

  /** Appending column `xPx` after columns `0 .. xPx - 1` keeps the layout. */
  lemma AppendColumnPaired(before: seq<Pixel>, xPx: nat, yPxLow: real, yPxHigh: real)
    requires PairedColumns(before, xPx as real)
    ensures PairedColumns(AppendColumn(before, xPx as real, yPxLow, yPxHigh), (xPx + 1) as real)
  {
    var points := AppendColumn(before, xPx as real, yPxLow, yPxHigh);
    var m := |before|;
    var x := xPx as real;
    assert |points| == m + 2 && points[m].x == x && points[m + 1].x == x;
    forall k | 0 <= k < |points|
      ensures 0.0 <= points[k].x < (xPx + 1) as real
    {
      if k < m {
        assert points[k] == before[k];
      }
    }
    forall i, j | 0 <= i <= j < |points|
      ensures points[i].x <= points[j].x
    {
      if j < m {
        assert points[i] == before[i] && points[j] == before[j];
      } else if i < m {
        assert points[i] == before[i];
      }
    }
    forall k | 0 <= k < |points| && k % 2 == 0
      ensures k + 1 < |points| && points[k + 1].x == points[k].x
    {
      if k < m {
        assert k + 1 != m;
        assert points[k] == before[k] && points[k + 1] == before[k + 1];
      }
    }
  }

  /** Every x in `points` is a whole number, the index of a column below
      `columns` that is not skipped. */
  ghost predicate OnDrawnColumns(n: int, offsetPoints: real, columnPointCount: real, points: seq<Pixel>, columns: nat)
    requires n >= 1
  {
    forall k :: 0 <= k < |points| ==>
      points[k].x == points[k].x.Floor as real && 0 <= points[k].x.Floor < columns &&
      ColumnWindow(n, offsetPoints, columnPointCount, points[k].x.Floor).Some?
  }

  /** Appending drawn column `xPx` to points on the drawn columns below it
      leaves every point on a drawn column below `xPx + 1`. */
  lemma AppendColumnOnDrawn(n: int, offsetPoints: real, columnPointCount: real, before: seq<Pixel>,
                            xPx: nat, yPxLow: real, yPxHigh: real)
    requires n >= 1 && ColumnWindow(n, offsetPoints, columnPointCount, xPx).Some?
    requires OnDrawnColumns(n, offsetPoints, columnPointCount, before, xPx)
    ensures OnDrawnColumns(n, offsetPoints, columnPointCount, AppendColumn(before, xPx as real, yPxLow, yPxHigh), xPx + 1)
  {
    var points := AppendColumn(before, xPx as real, yPxLow, yPxHigh);
    forall k | 0 <= k < |points|
      ensures points[k].x == points[k].x.Floor as real && 0 <= points[k].x.Floor < xPx + 1 &&
        ColumnWindow(n, offsetPoints, columnPointCount, points[k].x.Floor).Some?
    {
      if k < |before| {
        assert points[k] == before[k];
      } else {
        assert points[k].x == xPx as real;
        assert (xPx as real).Floor == xPx;
      }
    }
  }

  /** The points of the first `columns` pixel columns: two per column that
      is not skipped, so at most two per column, in the paired layout with
      every x the index of one of those columns. */
  lemma {:induction false} HighDensityPointsShape(d: SignalData, s: Settings, offsetPoints: real,
                                                  columnPointCount: real, columns: nat)
    requires |d.ys| >= 1
    ensures var points := HighDensityPoints(d, s, offsetPoints, columnPointCount, columns);
      var drawn := DrawnColumns(|d.ys|, offsetPoints, columnPointCount, columns);
      |points| == 2 * drawn && drawn <= columns && PairedColumns(points, columns as real)
    ensures var points := HighDensityPoints(d, s, offsetPoints, columnPointCount, columns);
      forall k :: 0 <= k < |points| ==>
        points[k].x == points[k].x.Floor as real && 0 <= points[k].x.Floor < columns &&
        ColumnWindow(|d.ys|, offsetPoints, columnPointCount, points[k].x.Floor).Some?
  {
    if columns > 0 {
      var xPx := columns - 1;
      var before := HighDensityPoints(d, s, offsetPoints, columnPointCount, xPx);
      HighDensityPointsShape(d, s, offsetPoints, columnPointCount, xPx);
      assert OnDrawnColumns(|d.ys|, offsetPoints, columnPointCount, before, xPx);
      match ColumnWindow(|d.ys|, offsetPoints, columnPointCount, xPx)
      case None =>
      case Some(w) =>
        AppendColumnPaired(before, xPx, YPxLow(d, s, w), YPxHigh(d, s, w));
        AppendColumnOnDrawn(|d.ys|, offsetPoints, columnPointCount, before, xPx, YPxLow(d, s, w), YPxHigh(d, s, w));
    }
  }

  /** The decimated renderer fails only on a negative list capacity.
      Otherwise it draws at most one polyline, and one exactly when some
      column is not skipped; that polyline has two points per such column,
      so at most twice the data-area width. */
  lemma HighDensityTraceShape(d: SignalData, s: Settings, offsetPoints: real, columnPointCount: real)
    requires |d.ys| >= 1
    ensures HighDensityTrace(d, s, offsetPoints, columnPointCount).Failure? <==> s.dataWidth * 2 + 1 < 0
    ensures HighDensityTrace(d, s, offsetPoints, columnPointCount).Failure? ==>
      HighDensityTrace(d, s, offsetPoints, columnPointCount).error == NegativeCapacity
    ensures HighDensityTrace(d, s, offsetPoints, columnPointCount).Success? ==>
      var draws := HighDensityTrace(d, s, offsetPoints, columnPointCount).value;
      var drawn := DrawnColumns(|d.ys|, offsetPoints, columnPointCount, s.dataWidth);
      |draws| <= 1 &&
      (draws == [] <==> drawn == 0) &&
      (draws != [] ==> draws[0].Polyline? && |draws[0].points| == 2 * drawn <= 2 * s.dataWidth)
  {
    if s.dataWidth * 2 + 1 >= 0 {
      HighDensityPointsShape(d, s, offsetPoints, columnPointCount, s.dataWidth);
    }
  }

  /** Every array read a drawn column makes is inside the data: its
      clamped window lies in `[0, N - 1]`, is not inverted when the ratio of
      samples per column is non-negative, and its two y values are the
      pixel rows of the greatest and least samples the scan compares. */
  lemma DrawnColumnReads(d: SignalData, s: Settings, offsetPoints: real, columnPointCount: real, xPx: int)
    requires |d.ys| >= 1
    requires ColumnWindow(|d.ys|, offsetPoints, columnPointCount, xPx).Some?
    ensures var w := ColumnWindow(|d.ys|, offsetPoints, columnPointCount, xPx).value;
      0 <= w.index1 < |d.ys| && 0 <= w.index2 < |d.ys| &&
      (columnPointCount >= 0.0 ==> w.index1 <= w.index2) &&
      (exists k :: w.index1 <= k < ScanEnd(w.index1, w.index2) &&
         YPxLow(d, s, w) == s.GetPixel(0.0, d.ys[k] + d.yOffset).y) &&
      (exists k :: w.index1 <= k < ScanEnd(w.index1, w.index2) &&
         YPxHigh(d, s, w) == s.GetPixel(0.0, d.ys[k] + d.yOffset).y)
  {
    var w := ColumnWindow(|d.ys|, offsetPoints, columnPointCount, xPx).value;
    RangeLowestIsLeast(d.ys, w.index1, w.index2);
    RangeHighestIsGreatest(d.ys, w.index1, w.index2);
  }

  /** The raw windows of consecutive columns meet end to end, so an index
      between the left edge of column 0 and the right edge of column
      `columns - 1` lies in the raw window of one of them. */
  lemma {:induction false} ColumnOfIndex(offsetPoints: real, columnPointCount: real, j: int, columns: nat)
    requires RawIndex(offsetPoints, columnPointCount, 0) <= j < RawIndex(offsetPoints, columnPointCount, columns)
    ensures exists c :: (0 <= c < columns &&
      RawIndex(offsetPoints, columnPointCount, c) <= j < RawIndex(offsetPoints, columnPointCount, c + 1))
  {
    var c := columns - 1;
    if j < RawIndex(offsetPoints, columnPointCount, c) {
      ColumnOfIndex(offsetPoints, columnPointCount, j, c);
    } else {
      assert RawIndex(offsetPoints, columnPointCount, c) <= j < RawIndex(offsetPoints, columnPointCount, c + 1);
    }
  }

  /** Only the last sample can be lost: every sample `j` below
      the last one whose index lies between the left edge of the first
      column and the right edge of the last is scanned by a column that is
      drawn, so it lies between that column's extremes. (The last sample,
      `N - 1`, can only be a column's seed: clamping `index2` to `N - 1`
      keeps it out of every scan.) */
  lemma SampleCovered(d: SignalData, offsetPoints: real, columnPointCount: real, columns: nat, j: int)
    requires |d.ys| >= 1 && 0 <= j < |d.ys| - 1
    requires RawIndex(offsetPoints, columnPointCount, 0) <= j < RawIndex(offsetPoints, columnPointCount, columns)
    ensures exists c :: (0 <= c < columns && ColumnWindow(|d.ys|, offsetPoints, columnPointCount, c).Some? &&
      var w := ColumnWindow(|d.ys|, offsetPoints, columnPointCount, c).value;
      w.index1 <= j < w.index2 &&
      RangeLowest(d.ys, w.index1, w.index2) <= d.ys[j] <= RangeHighest(d.ys, w.index1, w.index2))
  {
    ColumnOfIndex(offsetPoints, columnPointCount, j, columns);
    var c :| 0 <= c < columns &&
      RawIndex(offsetPoints, columnPointCount, c) <= j < RawIndex(offsetPoints, columnPointCount, c + 1);
    var w := ColumnWindow(|d.ys|, offsetPoints, columnPointCount, c).value;
    RangeLowestIsLeast(d.ys, w.index1, w.index2);
    RangeHighestIsGreatest(d.ys, w.index1, w.index2);
  }
}
