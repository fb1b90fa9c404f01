# ProgressView, modelled in Dafny

A model of the core of the Kotlin progress widget `ProgressView`. The widget
draws a progress value as a horizontal line, a half arc or a full circle. It
grows from the left or from the right edge and may paint the progress stroke
with a linear colour gradient.

The model has five modules:

- `KotlinTypes` (`kotlin_types.dfy`): `Option`, the `IllegalArgumentException`
  result, and the two Kotlin conversions the widget depends on. These are
  `Int / 2`, which truncates toward zero, and `Float.toInt()`, which drops
  the fraction.
- `Enums` (`enums.dfy`): `Direction` and `Shape` with their raw values. The
  decoders `getByValue` become total functions that return the exception
  instead of throwing. `DecodeAttributes` is the part of `init` that can fail.
- `GradientOrder` (`gradient_order.dfy`): the specification of the colour
  order. `Oriented` is the order `applyGradient` stores and `Redirected` is
  the order after a direction change. Kotlin's in-place `IntArray.reverse()`
  is `ReverseInPlace` on an `array<int>`.
- `Geometry` (`geometry.dfy`): `onMeasure`'s size and rectangle, the gradient
  endpoints of `updateShader`, and the strokes that `drawLine`/`drawArc`/`draw`
  hand to the canvas. Each stroke is a `DrawCall` value.
- `View` (`progress_view.dfy`): the class `ProgressView`. It holds the
  direction, the gradient colours as an `array?<int>`, the measured geometry,
  the installed gradient and the animations started so far. Its methods are
  the property setters, `applyGradient`, `onMeasure` and `updateShader`.
  `Valid()` is the class invariant. It says two things. The stored colours
  are the applied colours read from the current start edge. The installed
  gradient matches the stored colours and the measured size. Every
  operation of the view keeps this invariant.

`applyGradient` keeps the caller's array itself, not a copy. A Kotlin vararg
call passes a new array each time. A caller that passes its own array shares
it with the view, so three things follow. The view reverses that array in
place. Writes the caller makes after the call reach the next gradient the view
installs (`View.SharedArrayWriteScenario`). Passing the same array twice while
growing from the right stores opposite orders (`View.ApplySameArrayTwice`).
A write by the caller breaks `Valid()` until the next `applyGradient`. The direction
setter and `onMeasure` therefore do not require the invariant; they only
promise to keep it.

Pixel values and angles are `real`. Colours are `int` (signed 32-bit ARGB).

What the code does at its edges:

- The arc's gradient runs from (0, measuredWidth / 2) to (measuredWidth,
  measuredHeight). After measuring, those two heights are equal, or half a
  pixel apart for an odd side, so the line is horizontal
  (`Geometry.ArcGradientIsHorizontal`).
- The size is never checked. A 0x0 view with a canvas still draws both
  strokes; only a missing canvas draws nothing.
- The order of direction changes does not matter. While no one else writes
  to the stored array, the stored order is always `Oriented(direction,
  applied colours)` (`View.ProgressView.Valid`). A direction change while no
  colours are set reverses nothing.
- Animators are never cancelled, so `animations` only grows.
- During initialisation the progress is set, and its animation started,
  before the configured duration is read. The first animation therefore
  always uses the default 1500 ms (`View.ProgressView.constructor`).

## Model

| member | source | states |
|---|---|---|
| `KotlinTypes.HalfTowardZero` | kotlingprogressview/src/main/java/com/progress/kotlingprogressview/ProgressView.kt:146 | Kotlin integer halving: the remainder is 0 or has the sign of the dividend, so the quotient rounds toward zero |
| `KotlinTypes.TruncateToInt` | kotlingprogressview/src/main/java/com/progress/kotlingprogressview/ProgressView.kt:143 | float-to-int conversion drops the fraction: the result lies within 1 of the value, on the side of zero |
| `Enums.Direction.Value` | kotlingprogressview/src/main/java/com/progress/kotlingprogressview/ProgressView.kt:14-16 | the raw value of a direction is 0 or 1 |
| `Enums.Shape.Value` | kotlingprogressview/src/main/java/com/progress/kotlingprogressview/ProgressView.kt:28-31 | the raw value of a shape is 0, 1 or 2 |
| `Enums.DirectionByValue` | kotlingprogressview/src/main/java/com/progress/kotlingprogressview/ProgressView.kt:18-23 | decoding succeeds exactly for 0 and 1, yields the case with that value, and otherwise fails with IllegalArgumentException |
| `Enums.ShapeByValue` | kotlingprogressview/src/main/java/com/progress/kotlingprogressview/ProgressView.kt:33-39 | decoding succeeds exactly for 0, 1 and 2, yields the case with that value, and otherwise fails with IllegalArgumentException |
| `Enums.DirectionRoundTrip` | kotlingprogressview/src/main/java/com/progress/kotlingprogressview/ProgressView.kt:14-23 | decoding a direction's value gives the direction back, and a value decodes to a direction exactly when it is that direction's value |
| `Enums.ShapeRoundTrip` | kotlingprogressview/src/main/java/com/progress/kotlingprogressview/ProgressView.kt:28-39 | decoding a shape's value gives the shape back, and a value decodes to a shape exactly when it is that shape's value |
| `Enums.DecodeAttributes` | kotlingprogressview/src/main/java/com/progress/kotlingprogressview/ProgressView.kt:103-116 | initialisation succeeds exactly when both the direction and the shape attribute are in range, and the decoded cases carry those values |
| `Enums.DefaultAttributes` | kotlingprogressview/src/main/java/com/progress/kotlingprogressview/ProgressView.kt:103-107 | the default attributes decode to an arc growing from the left |
| `GradientOrder.ReversedAt` | kotlingprogressview/src/main/java/com/progress/kotlingprogressview/ProgressView.kt:58 | element k of the reversal is element n-1-k of the original |
| `GradientOrder.ReversedIndexes` | kotlingprogressview/src/main/java/com/progress/kotlingprogressview/ProgressView.kt:174 | the same, for every index at once |
| `GradientOrder.ReverseInPlace` | kotlingprogressview/src/main/java/com/progress/kotlingprogressview/ProgressView.kt:58 | the in-place reversal of the colour array leaves it holding the reversed old contents |
| `GradientOrder.ReversedTwice` | kotlingprogressview/src/main/java/com/progress/kotlingprogressview/ProgressView.kt:57-58 | reversing twice gives the original order (involution) |
| `GradientOrder.Oriented` | kotlingprogressview/src/main/java/com/progress/kotlingprogressview/ProgressView.kt:171-175 | applied colours are stored as given when growing from the left, and read back to front when growing from the right |
| `GradientOrder.Redirected` | kotlingprogressview/src/main/java/com/progress/kotlingprogressview/ProgressView.kt:56-61 | a direction change reverses the stored colours exactly when the new direction differs from the old one; setting the same direction keeps the order |
| `GradientOrder.RedirectKeepsOrientation` | kotlingprogressview/src/main/java/com/progress/kotlingprogressview/ProgressView.kt:56-63 | after a direction change, the colours are stored as if they had been applied under the new direction |
| `GradientOrder.RedirectRoundTrip` | kotlingprogressview/src/main/java/com/progress/kotlingprogressview/ProgressView.kt:56-61 | changing the direction and changing it back restores the stored order |
| `Geometry.HighStroke` | kotlingprogressview/src/main/java/com/progress/kotlingprogressview/ProgressView.kt:135 | the thicker of the two stroke widths: at least both and equal to one |
| `Geometry.Measure` | kotlingprogressview/src/main/java/com/progress/kotlingprogressview/ProgressView.kt:132-153 | with side = min(width, height): the arc and circle rectangle is the side square inset by half the thicker stroke on every edge (a square); the line's is a horizontal line across the side; measured size is (side, side/2) for the arc, (side, side) for the circle, and (width, the thicker stroke capped at height, truncated) for the line; it never exceeds the available size |
| `Geometry.ShaderFor` | kotlingprogressview/src/main/java/com/progress/kotlingprogressview/ProgressView.kt:217-255 | no gradient exactly when no colours are set; otherwise one over the stored colours spanning the measured width: horizontal at the top for the line, top-left to bottom-right for the circle, from half the width down the left edge to the measured height for the arc |
| `Geometry.ArcGradientIsHorizontal` | kotlingprogressview/src/main/java/com/progress/kotlingprogressview/ProgressView.kt:237-245 | once the arc is measured, its gradient drops by at most half a pixel, and not at all for an even side |
| `Geometry.LineCalls` | kotlingprogressview/src/main/java/com/progress/kotlingprogressview/ProgressView.kt:187-202 | no canvas draws nothing; otherwise the full-width background at mid-height, then a progress segment on that line starting at the edge the direction names and extending animatedProgress * width toward the other edge |
| `Geometry.ArcCalls` | kotlingprogressview/src/main/java/com/progress/kotlingprogressview/ProgressView.kt:204-215 | no canvas draws nothing; otherwise the background arc from 180 degrees with the full sweep, then the progress arc in the same oval, sweeping animatedProgress * sweep clockwise from 180 when growing from the left, or counter-clockwise (negated) from 0 when growing from the right |
| `Geometry.Draw` | kotlingprogressview/src/main/java/com/progress/kotlingprogressview/ProgressView.kt:123-130 | the shape selects line segments or arcs (full sweep 180 for the arc, 360 for the circle); nothing without a canvas, otherwise the background stroke first and the progress stroke second |
| `Geometry.BackgroundIgnoresProgress` | kotlingprogressview/src/main/java/com/progress/kotlingprogressview/ProgressView.kt:187-215 | the background stroke is the same for every direction and every progress |
| `Geometry.LineMirror` | kotlingprogressview/src/main/java/com/progress/kotlingprogressview/ProgressView.kt:196-200 | the right-growing progress segment is the mirror image (x to width - x) of the left-growing one, so both have the same length |
| `Geometry.ArcMirror` | kotlingprogressview/src/main/java/com/progress/kotlingprogressview/ProgressView.kt:208-213 | the right-growing progress arc is the mirror image of the left-growing one: start angle a becomes 180 - a and the sweep changes sign |
| `Geometry.ProgressWithinBackground` | kotlingprogressview/src/main/java/com/progress/kotlingprogressview/ProgressView.kt:187-215 | for progress in [0, 1] the progress stroke stays within the background; at 0 it is empty and at 1 it covers the background from its own end |
| `Geometry.FullArcFromRight` | kotlingprogressview/src/main/java/com/progress/kotlingprogressview/ProgressView.kt:179-215 | a full half arc growing from the right starts at 0 degrees and sweeps -180 |
| `View.ProgressView.BackgroundPaint` | kotlingprogressview/src/main/java/com/progress/kotlingprogressview/ProgressView.kt:65-84 | the background paint has the background width and colour and never a gradient |
| `View.ProgressView.ProgressPaint` | kotlingprogressview/src/main/java/com/progress/kotlingprogressview/ProgressView.kt:71-91 | the progress paint has the progress width and colour and the installed gradient |
| `View.ProgressView.constructor` | kotlingprogressview/src/main/java/com/progress/kotlingprogressview/ProgressView.kt:100-121 | a new view satisfies the invariant, has the given direction, shape, progress and style, no gradient colours, drawn progress 0, and one animation from 0 to the given progress with the default 1500 ms |
| `View.ProgressView.UpdateShader` | kotlingprogressview/src/main/java/com/progress/kotlingprogressview/ProgressView.kt:217-258 | the installed gradient becomes the one for the shape, the measured size and the stored colours, or none without colours |
| `View.ProgressView.SetProgressDirection` | kotlingprogressview/src/main/java/com/progress/kotlingprogressview/ProgressView.kt:55-63 | keeps the invariant; the direction becomes the new value; the same array is kept and its contents are reversed exactly when the direction changed; a null array stays null; the gradient is rebuilt only on a change; nothing else changes |
| `View.ProgressView.ApplyGradient` | kotlingprogressview/src/main/java/com/progress/kotlingprogressview/ProgressView.kt:171-177 | establishes the invariant; stores the caller's array itself, leaving its contents as given when growing from the left and reversed in place when growing from the right; nothing else changes |
| `View.ProgressView.OnMeasure` | kotlingprogressview/src/main/java/com/progress/kotlingprogressview/ProgressView.kt:132-153 | keeps the invariant; the gradient is rebuilt from the current array contents for the new size; the rectangle and measured size become those of `Measure`; nothing else changes |
| `View.ProgressView.SetProgress` | kotlingprogressview/src/main/java/com/progress/kotlingprogressview/ProgressView.kt:50-54 | records the new progress and starts one more animation, from the currently drawn value to the new one, with the current duration; earlier animations are kept |
| `View.ProgressView.OnAnimationUpdate` | kotlingprogressview/src/main/java/com/progress/kotlingprogressview/ProgressView.kt:162-165 | a value delivered by an animation becomes the drawn progress |
| `View.ProgressView.SetBackgroundWidth` | kotlingprogressview/src/main/java/com/progress/kotlingprogressview/ProgressView.kt:65-70 | only the background paint's stroke width changes, to the new value |
| `View.ProgressView.SetProgressWidth` | kotlingprogressview/src/main/java/com/progress/kotlingprogressview/ProgressView.kt:71-76 | only the progress paint's stroke width changes, to the new value |
| `View.ProgressView.SetProgressBackgroundColor` | kotlingprogressview/src/main/java/com/progress/kotlingprogressview/ProgressView.kt:78-84 | only the background paint's colour changes, to the new value |
| `View.ProgressView.SetProgressColor` | kotlingprogressview/src/main/java/com/progress/kotlingprogressview/ProgressView.kt:85-91 | only the progress paint's colour changes, to the new value |
| `View.ProgressView.Render` | kotlingprogressview/src/main/java/com/progress/kotlingprogressview/ProgressView.kt:123-130 | with a canvas, two strokes: a solid background in the background colour, then the progress stroke with the installed gradient, whose colours are the applied ones read from the start edge |
| `View.Inflate` | kotlingprogressview/src/main/java/com/progress/kotlingprogressview/ProgressView.kt:100-116 | construction from raw attribute values fails with IllegalArgumentException exactly when decoding fails; otherwise a fresh valid view with the decoded direction and shape |
| `View.GradientSwitchScenario` | app/src/main/java/com/progress/kotlinprogressview/MainActivity.kt:16 | applying green, yellow, red while growing from the left and then switching to the right stores red, yellow, green |
| `View.ApplyGradientTwice` | kotlingprogressview/src/main/java/com/progress/kotlingprogressview/ProgressView.kt:171-177 | applying the same colours twice, each time in a new array as a Kotlin vararg call does, under the same direction stores the same order both times |
| `View.ApplySameArrayTwice` | kotlingprogressview/src/main/java/com/progress/kotlingprogressview/ProgressView.kt:171-177 | passing one array twice stores first the oriented order and then the caller's original order, because the second call reverses the shared array again when growing from the right |
| `View.SharedArrayWriteScenario` | kotlingprogressview/src/main/java/com/progress/kotlingprogressview/ProgressView.kt:172 | a write by the caller to the applied array after the call reaches the gradient installed at the next measure |
| `View.DirectionRoundTrip` | kotlingprogressview/src/main/java/com/progress/kotlingprogressview/ProgressView.kt:55-63 | setting the current direction again keeps the stored order; changing it and changing it back restores it |
| `View.HalfLineScenario` | kotlingprogressview/src/main/java/com/progress/kotlingprogressview/ProgressView.kt:187-202 | a line growing from the left at one half, once its animation has delivered its target, draws a progress segment from 0 to half the canvas width |

## Left out

- Host-toolkit plumbing: the `View` base class, `super.draw`, `invalidate()`
  and `setMeasuredDimension`. The measured size is kept as two fields, and
  `getDefaultSize` becomes the `width`/`height` parameters of `OnMeasure`.
- Attribute lookup through `obtainStyledAttributes`/`TypedArray`. The
  constructor takes the resolved values, and `Inflate` adds only the decoding
  that can fail.
- `Int.toPx()` (display-density lookup): callers pass stroke widths already in pixels.
- The animator itself (`ValueAnimator`, `PropertyValuesHolder`,
  `DecelerateInterpolator`, frame timing). No easing curve, convergence or
  monotonicity is modelled. The model records each started animation (start
  value, target, duration), and any delivered value can be fed in through
  `OnAnimationUpdate`.
- IEEE float behaviour (rounding, NaN, infinities, `Float.toInt` saturation):
  all pixel values are exact `real`s.
- Canvas, `Paint` style/anti-aliasing and `LinearGradient` construction: only
  the computed arguments are modelled, as `DrawCall`, `Paint` and `Gradient`
  values.
- ApplyGradient: requires at least two colours. With fewer, the platform's
  gradient constructor throws after the array has been stored; that failure
  is not modelled.
- `animationDuration` has no custom setter in the source, so it is a plain field.
- `MainActivity`: UI wiring and random progress values. Only its gradient call
  is used, as a scenario.
