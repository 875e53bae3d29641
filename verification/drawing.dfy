/** The collaborators the renderer talks to. The coordinate mapper
    (`Settings.GetPixel`) is an uninterpreted function supplied by the
    caller; the drawing surface (`gfxData.DrawLine`, `DrawLines`,
    `FillEllipse`) is replaced by the sequence of primitives it is asked
    to draw, in order. */
module Drawing {

  /** A device pixel position (`PointF`). */
  datatype Pixel = Pixel(x: real, y: real)

  /** One call on the drawing surface. */
  datatype Draw =
    | Segment(from: Pixel, to: Pixel)        // DrawLine
    | Polyline(points: seq<Pixel>)          // DrawLines
    | Marker(center: Pixel, diameter: real) // FillEllipse centred on a point

  /** What one render call reads from the plot settings: the left edge of
      the x axis (`axis[0]`), the visible x span (`xAxisSpan`), the width of
      the data area in pixels (`dataSize.Width`) and the coordinate mapper. */
  datatype Settings = Settings(
    axisXMin: real,
    xAxisSpan: real,
    dataWidth: int,
    mapper: (real, real) -> Pixel)
  {
    /** The coordinate mapper: device pixel of a data-space point. */
    function GetPixel(x: real, y: real): Pixel {
      mapper(x, y)
    }
  }
}
