/** The progress view as a state object: its settings, the gradient colour
    array it reverses in place, the measured geometry and the animations it
    has started. Host-toolkit plumbing (redraw requests, attribute lookup,
    the animator itself) stays outside. */
module View {
  import opened KotlinTypes
  import opened Enums
  import opened GradientOrder
  import opened Geometry

  /** Colour constants of the host toolkit, as signed 32-bit ARGB values. */
  const BLACK: int := 0xFF00_0000 - 0x1_0000_0000
  const RED: int := 0xFFFF_0000 - 0x1_0000_0000
  const GREEN: int := 0xFF00_FF00 - 0x1_0000_0000
  const YELLOW: int := 0xFFFF_FF00 - 0x1_0000_0000

  /** The animation length used until one is configured, in milliseconds. */
  const DefaultAnimationDuration: int := 1500

  /** A value animation of the drawn progress, as it was started: from the
      drawn value of that moment to the requested one. Animations are never
      cancelled, so every one started may still be delivering values. */
  datatype Animation = Animation(from: real, to: real, durationMs: int)

  class ProgressView {
    const shape: Shape
    var progress: real
    var progressDirection: Direction
    var animationDuration: int
    var backgroundWidth: real
    var progressWidth: real
    var progressBackgroundColor: int
    var progressColor: int
    /** The gradient colours, in the order they are drawn from the start edge.
        This is the caller's own array, not a copy: the view reverses it in
        place, and a caller who keeps it can write to it. */
    var gradientColors: array?<int>
    /** The value actually drawn, written by the running animations. */
    var animatedProgress: real
    /** The rectangle the arc and the circle are drawn in. */
    var rect: Rect
    var measuredWidth: int
    var measuredHeight: int
    /** The gradient installed on the progress paint. */
    var shader: Option<Gradient>
    /** Every animation started, oldest first. */
    var animations: seq<Animation>
    /** The colours as they were last applied, before any reversal. */
    ghost var appliedColors: seq<int>

    /** The gradient colours in stored order, if any are set. */
    function Colors(): Option<seq<int>>
      reads this`gradientColors, gradientColors
    {
      if gradientColors == null then None else Some(gradientColors[..])
    }

    /** The stored colours are the applied ones anchored at the current
        start edge, and the installed gradient is the one computed from
        the stored colours and the last measured size. Every operation of
        the view keeps this; a caller writing to the stored array breaks it
        until the next `ApplyGradient`. */
    ghost predicate Valid()
      reads this`gradientColors, this`progressDirection, this`appliedColors, this`shader
      reads this`measuredWidth, this`measuredHeight, gradientColors
    {
      && (gradientColors != null ==> gradientColors[..] == Oriented(progressDirection, appliedColors))
      && shader == ShaderFor(shape, measuredWidth, measuredHeight, Colors())
    }

    /** The settings no operation here changes as a side effect. */
    ghost function Style(): (real, real, int, int, int)
      reads this`backgroundWidth, this`progressWidth, this`progressBackgroundColor, this`progressColor
      reads this`animationDuration
    {
      (backgroundWidth, progressWidth, progressBackgroundColor, progressColor, animationDuration)
    }

    ghost function Layout(): (Rect, int, int)
      reads this`rect, this`measuredWidth, this`measuredHeight
    {
      (rect, measuredWidth, measuredHeight)
    }

    ghost function Motion(): (real, real, seq<Animation>)
      reads this`progress, this`animatedProgress, this`animations
    {
      (progress, animatedProgress, animations)
    }

    /** The background paint: always a solid colour. */
    function BackgroundPaint(): (p: Paint)
      reads this`backgroundWidth, this`progressBackgroundColor
      ensures p.shader.None?
      ensures p.strokeWidth == backgroundWidth && p.color == progressBackgroundColor
    {
      Paint(backgroundWidth, progressBackgroundColor, None)
    }

    /** The progress paint: the progress colour, overridden by the gradient when one is installed. */
    function ProgressPaint(): (p: Paint)
      reads this`progressWidth, this`progressColor, this`shader
      ensures p.strokeWidth == progressWidth && p.color == progressColor && p.shader == shader
    {
      Paint(progressWidth, progressColor, shader)
    }

    /** Initialisation from already decoded attributes. The progress is set,
        and its animation started, before the configured duration is
        stored, so the first animation always runs for the default length. */
    constructor (direction: Direction, shape: Shape, progress: real, backgroundWidth: real,
                 progressWidth: real, backgroundColor: int, progressColor: int, animationDuration: int)
      ensures Valid()
      ensures this.shape == shape && progressDirection == direction && this.progress == progress
      ensures Style() == (backgroundWidth, progressWidth, backgroundColor, progressColor, animationDuration)
      ensures gradientColors == null && shader == None && animatedProgress == 0.0
      ensures animations == [Animation(0.0, progress, DefaultAnimationDuration)]
      ensures Layout() == (Rect(0.0, 0.0, 0.0, 0.0), 0, 0)
    {
      this.shape := shape;
      this.progress := 0.0;
      progressDirection := FromLeft;
      this.animationDuration := DefaultAnimationDuration;
      // the stroke and colour setters only store their value, so they are applied directly
      this.backgroundWidth := backgroundWidth;
      this.progressWidth := progressWidth;
      progressBackgroundColor := backgroundColor;
      this.progressColor := progressColor;
      gradientColors := null;
      animatedProgress := 0.0;
      rect := Rect(0.0, 0.0, 0.0, 0.0);
      measuredWidth, measuredHeight := 0, 0;
      shader := None;
      animations := [];
      appliedColors := [];
      new;
      SetProgressDirection(direction);
      SetProgress(progress);
      this.animationDuration := animationDuration;
    }

    /** `updateShader`: installs the gradient for the stored colours and the current measured size. */
    method UpdateShader()
      modifies this`shader
      ensures shader == ShaderFor(shape, measuredWidth, measuredHeight, Colors())
    {
      if gradientColors == null {
        shader := None;
        return;
      }
      shader := ShaderFor(shape, measuredWidth, measuredHeight, Some(gradientColors[..]));
    }

    /** The `progressDirection` setter: an actual change of direction
        reverses the stored colours in place and reinstalls the gradient;
        setting the current direction again changes nothing, not even a
        gradient gone stale through writes to the stored array. */
    method SetProgressDirection(value: Direction)
      modifies this, gradientColors
      ensures old(Valid()) ==> Valid()
      ensures progressDirection == value && gradientColors == old(gradientColors)
      ensures gradientColors != null ==>
        gradientColors[..] == Redirected(old(progressDirection), value, old(gradientColors[..]))
      ensures old(progressDirection) != value ==> shader == ShaderFor(shape, measuredWidth, measuredHeight, Colors())
      ensures old(progressDirection) == value ==> shader == old(shader)
      ensures appliedColors == old(appliedColors)
      ensures Style() == old(Style()) && Layout() == old(Layout()) && Motion() == old(Motion())
    {
      if progressDirection != value {
        if gradientColors != null {
          ReverseInPlace(gradientColors);
          RedirectKeepsOrientation(old(progressDirection), value, appliedColors);
        }
        UpdateShader();
      }
      progressDirection := value;
    }

    /** `applyGradient`: stores the caller's array itself, reverses it in
        place when progress grows from the right, and installs the gradient.
        A Kotlin vararg call passes a new array; a caller passing its own
        array shares it with the view. The gradient needs at least two
        colours. */
    method ApplyGradient(colors: array<int>)
      requires colors.Length >= 2
      modifies this, colors
      ensures Valid()
      ensures gradientColors == colors
      ensures colors[..] == Oriented(progressDirection, old(colors[..]))
      ensures appliedColors == old(colors[..]) && progressDirection == old(progressDirection)
      ensures Style() == old(Style()) && Layout() == old(Layout()) && Motion() == old(Motion())
    {
      gradientColors := colors;
      appliedColors := colors[..];
      if progressDirection == FromRight {
        ReverseInPlace(colors);
      }
      UpdateShader();
    }

    /** `onMeasure`: records the arc rectangle and the measured size for the
        available `width` and `height`, then reinstalls the gradient for
        the new size. */
    method OnMeasure(width: int, height: int)
      modifies this
      ensures old(Valid()) ==> Valid()
      ensures shader == ShaderFor(shape, measuredWidth, measuredHeight, Colors())
      ensures Measured(rect, measuredWidth, measuredHeight)
           == Measure(shape, width, height, progressWidth, backgroundWidth)
      ensures gradientColors == old(gradientColors) && progressDirection == old(progressDirection)
      ensures appliedColors == old(appliedColors)
      ensures Style() == old(Style()) && Motion() == old(Motion())
    {
      var highStroke := HighStroke(progressWidth, backgroundWidth);
      var min := MinInt(width, height);
      rect := Rect(highStroke / 2.0, highStroke / 2.0, min as real - highStroke / 2.0, min as real - highStroke / 2.0);
      match shape {
        case Line =>
          rect := Rect(0.0, highStroke / 2.0, min as real, highStroke / 2.0);
          measuredWidth, measuredHeight := width, TruncateToInt(MinReal(highStroke, height as real));
        case Arc =>
          measuredWidth, measuredHeight := min, HalfTowardZero(min);
        case Circle =>
          measuredWidth, measuredHeight := min, min;
      }
      UpdateShader();
    }

    /** The `progress` setter: starts an animation from the value drawn now
        to the new one, with the current duration, and records the new
        value. The drawn value itself only moves when the animation
        delivers values. */
    method SetProgress(value: real)
      modifies this`progress, this`animations
      ensures progress == value
      ensures animations == old(animations) + [Animation(animatedProgress, value, animationDuration)]
    {
      animations := animations + [Animation(animatedProgress, value, animationDuration)];
      progress := value;
    }

    /** The animation update listener: the value an animation delivers becomes the drawn value. */
    method OnAnimationUpdate(value: real)
      modifies this`animatedProgress
      ensures animatedProgress == value
    {
      animatedProgress := value;
    }

    /** The `backgroundWidth` setter, which also sets the background stroke. */
    method SetBackgroundWidth(value: real)
      modifies this`backgroundWidth
      ensures backgroundWidth == value
      ensures BackgroundPaint() == old(BackgroundPaint()).(strokeWidth := value)
      ensures ProgressPaint() == old(ProgressPaint())
    {
      backgroundWidth := value;
    }

    /** The `progressWidth` setter, which also sets the progress stroke. */
    method SetProgressWidth(value: real)
      modifies this`progressWidth
      ensures progressWidth == value
      ensures ProgressPaint() == old(ProgressPaint()).(strokeWidth := value)
      ensures BackgroundPaint() == old(BackgroundPaint())
    {
      progressWidth := value;
    }

    /** The `progressBackgroundColor` setter, which also colours the background stroke. */
    method SetProgressBackgroundColor(value: int)
      modifies this`progressBackgroundColor
      ensures progressBackgroundColor == value
      ensures BackgroundPaint() == old(BackgroundPaint()).(color := value)
      ensures ProgressPaint() == old(ProgressPaint())
    {
      progressBackgroundColor := value;
    }

    /** The `progressColor` setter, which also colours the progress stroke. */
    method SetProgressColor(value: int)
      modifies this`progressColor
      ensures progressColor == value
      ensures ProgressPaint() == old(ProgressPaint()).(color := value)
      ensures BackgroundPaint() == old(BackgroundPaint())
    {
      progressColor := value;
    }

    /** `draw`: the strokes for the current state. The background stroke is
        always solid; the progress stroke carries the gradient, whose colours
        are the applied ones read from the start edge. */
    function Render(canvas: Option<Canvas>): (calls: seq<DrawCall>)
      reads this, gradientColors
      ensures canvas.None? <==> calls == []
      ensures canvas.Some? ==>
        && |calls| == 2
        && calls[0].paint.shader.None? && calls[0].paint.color == progressBackgroundColor
        && calls[1].paint.shader == shader && calls[1].paint.color == progressColor
      ensures canvas.Some? && Valid() && gradientColors != null ==>
        calls[1].paint.shader.Some? && calls[1].paint.shader.value.colors == Oriented(progressDirection, appliedColors)
    {
      Draw(shape, canvas, rect, progressDirection, animatedProgress, BackgroundPaint(), ProgressPaint())
    }
  }

  /** Construction from raw attribute values: fails with the decoders'
      exception when the direction or the shape is out of range. */
  method Inflate(directionValue: int, shapeValue: int, progress: real, backgroundWidth: real,
                 progressWidth: real, backgroundColor: int, progressColor: int, animationDuration: int)
    returns (r: Result<ProgressView>)
    ensures r.Ok? <==> DecodeAttributes(directionValue, shapeValue).Ok?
    ensures r.Err? ==> r.error == IllegalArgumentException
    ensures r.Ok? ==>
      && fresh(r.value) && r.value.Valid()
      && r.value.progressDirection.Value() == directionValue && r.value.shape.Value() == shapeValue
  {
    match DecodeAttributes(directionValue, shapeValue)
    case Err(e) =>
      r := Err(e);
    case Ok((direction, shape)) =>
      var view := new ProgressView(direction, shape, progress, backgroundWidth, progressWidth,
                                   backgroundColor, progressColor, animationDuration);
      r := Ok(view);
  }

  /** Applying green, yellow, red while growing from the left and then
      switching to growing from the right stores red, yellow, green. */
  method GradientSwitchScenario() returns (stored: seq<int>)
    ensures stored == [RED, YELLOW, GREEN]
  {
    var view := new ProgressView(FromLeft, Circle, 0.0, 2.0, 10.0, BLACK, RED, DefaultAnimationDuration);
    var colors := new int[] [GREEN, YELLOW, RED];
    view.ApplyGradient(colors);
    view.SetProgressDirection(FromRight);
    stored := view.gradientColors[..];
    assert stored == Reversed([GREEN, YELLOW, RED]) by {
      ReversedIndexes([GREEN, YELLOW, RED]);
    }
  }

  /** Applying the same colours twice as Kotlin vararg calls do, each time
      in a new array, under the same direction stores the same order both
      times. */
  method ApplyGradientTwice(view: ProgressView, colors: seq<int>) returns (first: seq<int>, second: seq<int>)
    requires |colors| >= 2
    modifies view
    ensures first == second == Oriented(view.progressDirection, colors)
  {
    var once := new int[|colors|](i requires 0 <= i < |colors| => colors[i]);
    assert once[..] == colors;
    view.ApplyGradient(once);
    first := view.gradientColors[..];
    var again := new int[|colors|](i requires 0 <= i < |colors| => colors[i]);
    assert again[..] == colors;
    view.ApplyGradient(again);
    second := view.gradientColors[..];
  }

  /** Passing one shared array twice is different: while growing from the
      right the second call reverses the already reversed array again, so
      the two calls store opposite orders and the second one leaves the
      caller's original order. */
  method ApplySameArrayTwice(view: ProgressView, colors: array<int>) returns (first: seq<int>, second: seq<int>)
    requires colors.Length >= 2
    modifies view, colors
    ensures first == Oriented(view.progressDirection, old(colors[..]))
    ensures second == old(colors[..])
  {
    ghost var original := colors[..];
    view.ApplyGradient(colors);
    first := colors[..];
    view.ApplyGradient(colors);
    second := colors[..];
    if view.progressDirection == FromRight {
      ReversedTwice(original);
    }
  }

  /** A caller that keeps the array it applied and writes to it changes what
      the next measure installs: here the first colour, green, is
      overwritten with red before the view is measured. */
  method SharedArrayWriteScenario() returns (installed: seq<int>)
    ensures installed == [RED, YELLOW, RED]
  {
    var view := new ProgressView(FromLeft, Circle, 0.0, 2.0, 10.0, BLACK, RED, DefaultAnimationDuration);
    var colors := new int[] [GREEN, YELLOW, RED];
    view.ApplyGradient(colors);
    colors[0] := RED;
    view.OnMeasure(100, 100);
    installed := view.shader.value.colors;
  }

  /** Setting the direction to the other value and back restores the stored
      order; setting the current direction again leaves it alone. */
  method DirectionRoundTrip(view: ProgressView, other: Direction) returns (before: seq<int>, same: seq<int>, after: seq<int>)
    requires view.gradientColors != null
    modifies view, view.gradientColors
    ensures same == before && after == before
  {
    var start := view.progressDirection;
    before := view.gradientColors[..];
    view.SetProgressDirection(start);
    same := view.gradientColors[..];
    view.SetProgressDirection(other);
    view.SetProgressDirection(start);
    after := view.gradientColors[..];
    RedirectRoundTrip(start, other, before);
  }

  /** A line growing from the left, set to one half: once its animation has
      delivered its target, the progress segment is half the canvas wide. */
  method HalfLineScenario(canvas: Canvas) returns (calls: seq<DrawCall>)
    ensures |calls| == 2 && calls[1].Segment? && calls[1].startX == 0.0 && calls[1].stopX == 0.5 * canvas.width as real
  {
    var view := new ProgressView(FromLeft, Line, 0.5, 2.0, 10.0, BLACK, RED, DefaultAnimationDuration);
    view.OnAnimationUpdate(view.animations[0].to);
    calls := view.Render(Some(canvas));
  }
}
