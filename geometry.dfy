/** What the widget measures and draws, as values: the measured size and
    the arc rectangle, the gradient endpoints, and the list of strokes a
    redraw hands to the canvas. Pixel values are `real`; the float rounding
    of the original is not modelled. */
module Geometry {
  import opened KotlinTypes
  import opened Enums

  /** A rectangle given by its four edges, as `RectF` holds it. */
  datatype Rect = Rect(left: real, top: real, right: real, bottom: real)

  /** The drawing surface, of which only the size is read. */
  datatype Canvas = Canvas(width: int, height: int)

  /** A two-point linear colour gradient over the given colours, clamped at the ends. */
  datatype Gradient = LinearGradient(x0: real, y0: real, x1: real, y1: real, colors: seq<int>)

  /** A stroke paint: its width, its solid colour and the gradient that overrides the colour. */
  datatype Paint = Paint(strokeWidth: real, color: int, shader: Option<Gradient>)

  /** One stroke handed to the canvas. */
  datatype DrawCall =
    | Segment(startX: real, startY: real, stopX: real, stopY: real, paint: Paint)
    | ArcStroke(oval: Rect, startAngle: real, sweepAngle: real, useCenter: bool, paint: Paint)

  /** The outcome of measuring: the arc rectangle and the measured size. */
  datatype Measured = Measured(rect: Rect, width: int, height: int)

  /** Full sweep, in degrees, of the half arc and of the circle. */
  const ArcSweep: real := 180.0
  const CircleSweep: real := 360.0

  /** Where the background arc starts: the leftmost point of the oval. */
  const BackgroundStart: real := 180.0

  function MinInt(a: int, b: int): int { if a <= b then a else b }
  function MinReal(a: real, b: real): real { if a <= b then a else b }
  function MaxReal(a: real, b: real): real { if a >= b then a else b }

  /** The thicker of the two strokes; the drawing is inset by half of it. */
  function HighStroke(progressWidth: real, backgroundWidth: real): (hs: real)
    ensures hs >= progressWidth && hs >= backgroundWidth
    ensures hs == progressWidth || hs == backgroundWidth
  {
    MaxReal(progressWidth, backgroundWidth)
  }

  /** `onMeasure`: from the available `width` and `height` and the two
      stroke widths, the rectangle the arc is drawn in and the measured size.
      `side` is the smaller available dimension. */
  function Measure(shape: Shape, width: int, height: int, progressWidth: real, backgroundWidth: real): (m: Measured)
    ensures var side, inset := MinInt(width, height), HighStroke(progressWidth, backgroundWidth) / 2.0;
      && (shape != Line ==>
            // the side x side square, shrunk by half the thicker stroke on every edge
            && m.rect.left == inset && m.rect.top == inset
            && side as real - m.rect.right == inset && side as real - m.rect.bottom == inset)
      && (shape == Line ==>
            // a horizontal line across the side, half the thicker stroke from the top
            m.rect == Rect(0.0, inset, side as real, inset))
      && (shape == Arc ==> m.width == side && m.height == HalfTowardZero(side))
      && (shape == Circle ==> m.width == side && m.height == side)
      && (shape == Line ==>
            m.width == width && m.height == TruncateToInt(MinReal(2.0 * inset, height as real)))
    ensures m.width <= width
    ensures MinInt(width, height) >= 0 ==> m.height <= height
    ensures shape != Line ==> m.rect.right - m.rect.left == m.rect.bottom - m.rect.top
  {
    var hs := HighStroke(progressWidth, backgroundWidth);
    var side := MinInt(width, height);
    // `rectF` is first set to the inset square; the line case then overwrites it
    var square := Rect(hs / 2.0, hs / 2.0, side as real - hs / 2.0, side as real - hs / 2.0);
    match shape
    case Line =>
      Measured(Rect(0.0, hs / 2.0, side as real, hs / 2.0), width, TruncateToInt(MinReal(hs, height as real)))
    case Arc => Measured(square, side, HalfTowardZero(side))
    case Circle => Measured(square, side, side)
  }

  /** `updateShader`: no gradient while no colours are set; otherwise a
      gradient over the colours in their stored order, always spanning the
      measured width, horizontal for the line, from the top-left to the
      bottom-right corner for the circle, and for the arc starting half the
      width down the left edge. */
  function ShaderFor(shape: Shape, measuredWidth: int, measuredHeight: int, colors: Option<seq<int>>): (g: Option<Gradient>)
    ensures g.None? <==> colors.None?
    ensures g.Some? ==>
      && g.value.colors == colors.value
      && g.value.x0 == 0.0 && g.value.x1 == measuredWidth as real
      && (shape == Line ==> g.value.y0 == 0.0 && g.value.y1 == 0.0)
      && (shape == Arc ==> g.value.y0 == measuredWidth as real / 2.0 && g.value.y1 == measuredHeight as real)
      && (shape == Circle ==> g.value.y0 == 0.0 && g.value.y1 == measuredHeight as real)
  {
    match colors
    case None => None
    case Some(cs) =>
      var w, h := measuredWidth as real, measuredHeight as real;
      match shape
      case Line => Some(LinearGradient(0.0, 0.0, w, 0.0, cs))
      case Arc => Some(LinearGradient(0.0, w / 2.0, w, h, cs))
      case Circle => Some(LinearGradient(0.0, 0.0, w, h, cs))
  }

  /** Once the arc has been measured, its gradient runs horizontally, or
      drops by half a pixel when the side is odd, rather than diagonally. */
  lemma ArcGradientIsHorizontal(width: int, height: int, progressWidth: real, backgroundWidth: real, cs: seq<int>)
    requires MinInt(width, height) >= 0
    ensures var m := Measure(Arc, width, height, progressWidth, backgroundWidth);
      var g := ShaderFor(Arc, m.width, m.height, Some(cs)).value;
      0.0 <= g.y0 - g.y1 <= 0.5 && (MinInt(width, height) % 2 == 0 ==> g.y0 == g.y1)
  {
  }

  /** The x coordinate progress grows from. */
  function StartEdge(d: Direction, width: real): real
  {
    if d == FromLeft then 0.0 else width
  }

  /** +1 when progress grows rightward/clockwise, -1 when leftward/counter-clockwise. */
  function Growth(d: Direction): real
  {
    if d == FromLeft then 1.0 else -1.0
  }

  /** `drawLine`: with a canvas, the background segment across the full
      width at mid-height, then the progress segment on the same line,
      starting at the edge the direction names and extending
      `animatedProgress * width` toward the other edge. Without a canvas,
      nothing. */
  function LineCalls(canvas: Option<Canvas>, direction: Direction, animatedProgress: real,
                     background: Paint, progress: Paint): (calls: seq<DrawCall>)
    ensures canvas.None? ==> calls == []
    ensures canvas.Some? ==>
      var w, y := canvas.value.width as real, canvas.value.height as real / 2.0;
      && |calls| == 2
      && calls[0] == Segment(0.0, y, w, y, background)
      && calls[1].Segment? && calls[1].paint == progress
      && calls[1].startY == y && calls[1].stopY == y
      && calls[1].startX == StartEdge(direction, w)
      && Growth(direction) * (calls[1].stopX - calls[1].startX) == animatedProgress * w
  {
    match canvas
    case None => []
    case Some(c) =>
      var y := c.height as real / 2.0;
      var width := c.width as real;
      var progressWidth := animatedProgress * width;
      var progressCall :=
        if direction == FromRight then Segment(width, y, width - progressWidth, y, progress)
        else Segment(0.0, y, progressWidth, y, progress);
      [Segment(0.0, y, width, y, background), progressCall]
  }

  /** `drawArc(canvas, sweepAngle)`: with a canvas, the background arc from
      180 degrees over the full sweep, then the progress arc in the same
      oval sweeping `animatedProgress * sweepAngle`, clockwise from 180
      degrees when growing from the left and counter-clockwise from 0
      degrees when growing from the right. Without a canvas, nothing. */
  function ArcCalls(canvas: Option<Canvas>, oval: Rect, sweepAngle: real, direction: Direction,
                    animatedProgress: real, background: Paint, progress: Paint): (calls: seq<DrawCall>)
    ensures canvas.None? ==> calls == []
    ensures canvas.Some? ==>
      && |calls| == 2
      && calls[0] == ArcStroke(oval, BackgroundStart, sweepAngle, false, background)
      && calls[1].ArcStroke? && calls[1].oval == oval && !calls[1].useCenter && calls[1].paint == progress
      && calls[1].startAngle == (if direction == FromLeft then BackgroundStart else 0.0)
      && calls[1].sweepAngle == Growth(direction) * animatedProgress * sweepAngle
  {
    if canvas.None? then []
    else
      var startAngle := BackgroundStart;
      var progressSweepAngle := animatedProgress * sweepAngle;
      var progressCall :=
        if direction == FromRight then ArcStroke(oval, 0.0, -progressSweepAngle, false, progress)
        else ArcStroke(oval, startAngle, progressSweepAngle, false, progress);
      [ArcStroke(oval, startAngle, sweepAngle, false, background), progressCall]
  }

  /** `draw`: the strokes for the configured shape, background first, then
      progress; the half arc sweeps 180 degrees and the circle 360. */
  function Draw(shape: Shape, canvas: Option<Canvas>, oval: Rect, direction: Direction,
                animatedProgress: real, background: Paint, progress: Paint): (calls: seq<DrawCall>)
    ensures canvas.None? <==> calls == []
    ensures canvas.Some? ==> |calls| == 2 && calls[0].paint == background && calls[1].paint == progress
    ensures shape == Line ==> forall c :: c in calls ==> c.Segment?
    ensures shape != Line ==> forall c :: c in calls ==> c.ArcStroke? && c.oval == oval
    ensures canvas.Some? && shape == Arc ==> calls[0].sweepAngle == ArcSweep
    ensures canvas.Some? && shape == Circle ==> calls[0].sweepAngle == CircleSweep
  {
    match shape
    case Line => LineCalls(canvas, direction, animatedProgress, background, progress)
    case Arc => ArcCalls(canvas, oval, ArcSweep, direction, animatedProgress, background, progress)
    case Circle => ArcCalls(canvas, oval, CircleSweep, direction, animatedProgress, background, progress)
  }

  /** The background stroke depends neither on the direction nor on the progress. */
  lemma BackgroundIgnoresProgress(shape: Shape, c: Canvas, oval: Rect, d1: Direction, d2: Direction,
                                  p1: real, p2: real, background: Paint, progress: Paint)
    ensures Draw(shape, Some(c), oval, d1, p1, background, progress)[0]
         == Draw(shape, Some(c), oval, d2, p2, background, progress)[0]
  {
  }

  /** Growing from the right draws the mirror image, across the vertical
      middle of the canvas, of growing from the left: the progress segment
      has the same length in both directions. */
  lemma LineMirror(c: Canvas, p: real, background: Paint, progress: Paint)
    ensures var w := c.width as real;
      var l := LineCalls(Some(c), FromLeft, p, background, progress)[1];
      var r := LineCalls(Some(c), FromRight, p, background, progress)[1];
      r.startX == w - l.startX && r.stopX == w - l.stopX && r.startY == l.startY
  {
  }

  /** Growing from the right draws the mirror image, across the vertical
      axis of the oval, of growing from the left: an angle a becomes
      180 - a and the sweep changes sign. */
  lemma ArcMirror(c: Canvas, oval: Rect, sweepAngle: real, p: real, background: Paint, progress: Paint)
    ensures var l := ArcCalls(Some(c), oval, sweepAngle, FromLeft, p, background, progress)[1];
      var r := ArcCalls(Some(c), oval, sweepAngle, FromRight, p, background, progress)[1];
      r.startAngle == 180.0 - l.startAngle && r.sweepAngle == -l.sweepAngle
  {
  }

  /** For a progress between 0 and 1, the progress stroke stays within the
      background: the segment inside the canvas width, the sweep no larger
      than the full sweep; at 0 it is empty and at 1 it covers the whole
      background, from whichever end. */
  lemma ProgressWithinBackground(shape: Shape, c: Canvas, oval: Rect, d: Direction, p: real,
                                 background: Paint, progress: Paint)
    requires 0.0 <= p <= 1.0 && c.width >= 0
    ensures var calls := Draw(shape, Some(c), oval, d, p, background, progress);
      var w := c.width as real;
      && (shape == Line ==>
            && 0.0 <= calls[1].stopX <= w
            && (p == 0.0 ==> calls[1].stopX == calls[1].startX)
            && (p == 1.0 ==> calls[1].stopX == w - calls[1].startX))
      && (shape != Line ==>
            && -calls[0].sweepAngle <= calls[1].sweepAngle <= calls[0].sweepAngle
            && (p == 0.0 ==> calls[1].sweepAngle == 0.0)
            && (p == 1.0 ==> calls[1].sweepAngle == Growth(d) * calls[0].sweepAngle))
  {
    if shape == Line {
      var w := c.width as real;
      assert 0.0 <= p * w <= w by {
        assert p * w <= 1.0 * w;
      }
    } else {
      var full := if shape == Arc then ArcSweep else CircleSweep;
      assert 0.0 <= p * full <= full;
    }
  }

  /** A half arc growing from the right and completely full starts at 0
      degrees and sweeps 180 degrees counter-clockwise. */
  lemma FullArcFromRight(c: Canvas, oval: Rect, background: Paint, progress: Paint)
    ensures var call := Draw(Arc, Some(c), oval, FromRight, 1.0, background, progress)[1];
      call.startAngle == 0.0 && call.sweepAngle == -180.0
  {
  }
}
