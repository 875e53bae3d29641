/** The signal plottable itself: a uniformly sampled series `ys` with its
    sample period and offsets, and the renderer that picks one of three
    drawing strategies per call. The render methods only read the object;
    each returns the trace of drawing calls it makes (or the exception it
    raises) and is proved equal to the matching function of SignalSpec. */
module Signal {
  import opened Base
  import opened Extremes
  import opened Drawing
  import opened SignalSpec

  class PlottableSignal {
    var ys: array<real>
    var sampleRate: real
    var samplePeriod: real
    var markerSize: real
    var xOffset: real
    var yOffset: real
    var pointCount: int

    /** The period is the reciprocal of a positive sample rate. */
    ghost predicate Valid()
      reads this
    {
      sampleRate > 0.0 && samplePeriod == 1.0 / sampleRate
    }

    constructor (ys: array<real>, sampleRate: real, xOffset: real, yOffset: real, markerSize: real)
      requires sampleRate > 0.0
      ensures Valid()
      ensures this.ys == ys && this.sampleRate == sampleRate
      ensures samplePeriod > 0.0 && samplePeriod * sampleRate == 1.0
      ensures this.xOffset == xOffset && this.yOffset == yOffset && this.markerSize == markerSize
      ensures pointCount == ys.Length
    {
      this.ys := ys;
      this.sampleRate := sampleRate;
      this.samplePeriod := 1.0 / sampleRate;
      this.markerSize := markerSize;
      this.xOffset := xOffset;
      this.yOffset := yOffset;
      this.pointCount := ys.Length;
    }

    /** Construction as the caller sees it: a missing data array is
        rejected before any field is set. */
    static method Create(ys: array?<real>, sampleRate: real, xOffset: real, yOffset: real, markerSize: real)
      returns (r: Result<PlottableSignal, Fault>)
      requires sampleRate > 0.0
      ensures r.Failure? <==> ys == null
      ensures r.Failure? ==> r.error == NullData
      ensures r.Success? ==> fresh(r.value) && r.value.Valid() && r.value.ys == ys
      ensures r.Success? ==> r.value.pointCount == ys.Length && r.value.samplePeriod * sampleRate == 1.0
      ensures r.Success? ==> r.value.xOffset == xOffset && r.value.yOffset == yOffset
      ensures r.Success? ==> r.value.markerSize == markerSize && r.value.sampleRate == sampleRate
    {
      if ys == null {
        return Failure(NullData);
      }
      var signal := new PlottableSignal(ys, sampleRate, xOffset, yOffset, markerSize);
      return Success(signal);
    }

    /** The fields rendering reads, as one value. */
    function Data(): SignalData
      reads this, ys
    {
      SignalData(ys[..], samplePeriod, xOffset, yOffset, markerSize)
    }

    /** Axis limits `[xMin, xMax, yMin, yMax]` that enclose every sample. */
    method GetLimits() returns (limits: array<real>)
      requires ys.Length >= 1
      ensures fresh(limits) && limits.Length == 4
      ensures limits[0] == xOffset && limits[1] == samplePeriod * ys.Length as real + xOffset
      ensures forall i :: 0 <= i < ys.Length ==> limits[2] <= ys[i] + yOffset <= limits[3]
      ensures exists i :: 0 <= i < ys.Length && limits[2] == ys[i] + yOffset
      ensures exists i :: 0 <= i < ys.Length && limits[3] == ys[i] + yOffset
      ensures samplePeriod >= 0.0 ==> limits[0] <= limits[1]
    {
      var lowest := RangeLowest(ys[..], 0, ys.Length);
      var highest := RangeHighest(ys[..], 0, ys.Length);
      RangeLowestIsLeast(ys[..], 0, ys.Length);
      RangeHighestIsGreatest(ys[..], 0, ys.Length);
      limits := new real[4];
      limits[0] := 0.0 + xOffset;
      limits[1] := samplePeriod * ys.Length as real + xOffset;
      limits[2] := lowest + yOffset;
      limits[3] := highest + yOffset;
    }

    /** The range reducer: seed with `ys[index1]`, then scan
        `[index1, index2)`; `ys[index2]` is never read. */
    method MinMaxRangeQuery(index1: int, index2: int) returns (lowestValue: real, highestValue: real)
      requires 0 <= index1 < ys.Length && index2 <= ys.Length
      ensures lowestValue == RangeLowest(ys[..], index1, index2)
      ensures highestValue == RangeHighest(ys[..], index1, index2)
      ensures lowestValue <= highestValue
      ensures forall k :: index1 <= k < ScanEnd(index1, index2) ==> lowestValue <= ys[k] <= highestValue
      ensures exists k :: index1 <= k < ScanEnd(index1, index2) && ys[k] == lowestValue
      ensures exists k :: index1 <= k < ScanEnd(index1, index2) && ys[k] == highestValue
    {
      lowestValue := ys[index1];
      highestValue := ys[index1];
      var i := index1;
      while i < index2
        invariant index1 <= i && (i <= index2 || i == index1)
        invariant lowestValue == RangeLowest(ys[..], index1, i)
        invariant highestValue == RangeHighest(ys[..], index1, i)
      {
        if ys[i] < lowestValue {
          lowestValue := ys[i];
        }
        if ys[i] > highestValue {
          highestValue := ys[i];
        }
        i := i + 1;
      }
      RangeLowestIsLeast(ys[..], index1, index2);
      RangeHighestIsGreatest(ys[..], index1, index2);
    }

    /** Per-sample rendering: clamp the visible window, take one pixel per
        sample (and one past the window), then draw the polyline and a
        marker per point when there are at least two. */
    method RenderLowDensity(settings: Settings, visibleIndex1: int, visibleIndex2: int)
      returns (result: Result<seq<Draw>, Fault>)
      requires ys.Length >= 1
      ensures result == LowDensityTrace(Data(), settings, visibleIndex1, visibleIndex2)
    {
      if visibleIndex2 - visibleIndex1 + 2 < 0 {
        return Failure(NegativeCapacity);
      }
      var first, last := visibleIndex1, visibleIndex2;
      if last > ys.Length - 2 {
        last := ys.Length - 2;
      }
      if first < 0 {
        first := 0;
      }

      var linePoints := SamplePoints(settings, first, last + 1);
      var draws: seq<Draw> := [];
      if |linePoints| > 1 {
        var markers := MarkerDraws(linePoints);
        draws := [Polyline(linePoints)] + markers;
      }
      LowDensityTraceOfPoints(Data(), settings, visibleIndex1, visibleIndex2, first, last, linePoints, draws);
      return Success(draws);
    }

    /** The pixels of samples `first .. last`, both included, in index
        order. */
    method SamplePoints(settings: Settings, first: int, last: int) returns (linePoints: seq<Pixel>)
      requires 0 <= first && (last < first || last < ys.Length)
      ensures linePoints == SamplePixels(Data(), settings, first, last)
    {
      linePoints := [];
      var i := first;
      while i <= last
        invariant first <= i <= Max(first, last + 1)
        invariant linePoints == SamplePixels(Data(), settings, first, i - 1)
      {
        var point := settings.GetPixel(SampleX(samplePeriod, xOffset, i), ys[i] + yOffset);
        assert point == SamplePixel(Data(), settings, i);
        linePoints := linePoints + [point];
        i := i + 1;
      }
    }

    /** A marker of the signal's size at each point, in order. */
    method MarkerDraws(points: seq<Pixel>) returns (marks: seq<Draw>)
      ensures marks == Markers(points, markerSize)
    {
      marks := [];
      for k := 0 to |points|
        invariant marks == Markers(points[..k], markerSize)
      {
        assert points[..k + 1][..k] == points[..k];
        marks := marks + [Marker(points[k], markerSize)];
      }
      assert points[..|points|] == points;
    }

    /** One pixel column of the decimated renderer: the window of samples
        under column `xPx`, skipped when it lies wholly outside the data,
        otherwise clamped, reduced to its extremes and appended as two
        points ordered by the anti-aliasing rule. */
    method AppendColumnPoints(settings: Settings, offsetPoints: real, columnPointCount: real,
                              linePoints: seq<Pixel>, xPx: int)
      returns (after: seq<Pixel>)
      requires ys.Length >= 1
      ensures after == ColumnStep(Data(), settings, offsetPoints, columnPointCount, linePoints, xPx)
    {
      // data indexes for this pixel column
      var index1 := RawIndex(offsetPoints, columnPointCount, xPx);
      var index2 := RawIndex(offsetPoints, columnPointCount, xPx + 1);

      // skip columns outside the data
      if index2 < 0 || index1 > ys.Length - 1 {
        ColumnSkipped(ys.Length, offsetPoints, columnPointCount, xPx);
        return linePoints;
      }
      if index1 < 0 {
        index1 := 0;
      }
      if index2 > ys.Length - 1 {
        index2 := ys.Length - 1;
      }
      ghost var w := Window(index1, index2);
      ColumnClamped(ys.Length, offsetPoints, columnPointCount, xPx, w);

      var lowestValue, highestValue := MinMaxRangeQuery(index1, index2);
      var yPxHigh := settings.GetPixel(0.0, lowestValue + yOffset).y;
      var yPxLow := settings.GetPixel(0.0, highestValue + yOffset).y;

      // order the two points to enhance anti-aliasing
      if |linePoints| < 2 || yPxLow < linePoints[|linePoints| - 1].y {
        after := linePoints + [Pixel(xPx as real, yPxLow), Pixel(xPx as real, yPxHigh)];
      } else {
        after := linePoints + [Pixel(xPx as real, yPxHigh), Pixel(xPx as real, yPxLow)];
      }
      assert after == AppendColumn(linePoints, xPx as real, yPxLow, yPxHigh);
      ColumnStepOfExtremes(Data(), settings, offsetPoints, columnPointCount, linePoints, xPx, w,
                           lowestValue, highestValue, yPxLow, yPxHigh, after);
    }

    /** Decimated rendering: for each pixel column, the extremes of the
        samples under it, as two points; one polyline through all of them. */
    method RenderHighDensity(settings: Settings, offsetPoints: real, columnPointCount: real)
      returns (result: Result<seq<Draw>, Fault>)
      requires ys.Length >= 1
      ensures result == HighDensityTrace(Data(), settings, offsetPoints, columnPointCount)
    {
      if settings.dataWidth * 2 + 1 < 0 {
        return Failure(NegativeCapacity);
      }
      var linePoints: seq<Pixel> := [];
      for xPx := 0 to settings.dataWidth
        invariant linePoints == HighDensityPoints(Data(), settings, offsetPoints, columnPointCount, xPx)
      {
        linePoints := AppendColumnPoints(settings, offsetPoints, columnPointCount, linePoints, xPx);
      }

      if |linePoints| > 0 {
        return Success([Polyline(linePoints)]);
      }
      return Success([]);
    }

    /** One render call: classify, then run exactly one renderer. */
    method Render(settings: Settings) returns (result: Result<seq<Draw>, Fault>)
      requires Valid() && ys.Length >= 1
      ensures result == RenderTrace(Data(), settings)
    {
      var plan := Classify(Data(), settings);
      match plan
      case Failure(f) =>
        result := Failure(f);
      case Success(SingleColumn) =>
        result := Success(RenderSingleLine(Data(), settings));
      case Success(HighDensity(offsetPoints, columnPointCount)) =>
        result := RenderHighDensity(settings, offsetPoints, columnPointCount);
      case Success(LowDensity(visibleIndex1, visibleIndex2)) =>
        result := RenderLowDensity(settings, visibleIndex1, visibleIndex2);
    }
  }
}
