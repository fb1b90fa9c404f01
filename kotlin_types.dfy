/** Small pieces of the Kotlin/JVM runtime that the widget relies on:
    an optional value, the exception the enum decoders throw, and the
    integer conversions whose rounding differs from Dafny's. */
module KotlinTypes {

  datatype Option<+T> = None | Some(value: T)

  /** The only exception the widget raises itself. */
  datatype Error = IllegalArgumentException

  /** A computation that either yields a value or throws. */
  datatype Result<+T> = Ok(value: T) | Err(error: Error)

  /** Kotlin's `Int / 2`: the quotient is truncated toward zero, so the
      remainder has the sign of the dividend (Dafny's `/` is Euclidean). */
  function HalfTowardZero(n: int): (r: int)
    ensures n >= 0 ==> 0 <= n - 2 * r <= 1
    ensures n < 0 ==> -1 <= n - 2 * r <= 0
  {
    if n >= 0 then n / 2 else -((-n) / 2)
  }

  /** Kotlin's `Float.toInt()` on a finite value inside the `Int` range:
      the fractional part is dropped, rounding toward zero. */
  function TruncateToInt(x: real): (r: int)
    ensures x >= 0.0 ==> r as real <= x < r as real + 1.0
    ensures x < 0.0 ==> r as real - 1.0 < x <= r as real
  {
    if x >= 0.0 then x.Floor else -((-x).Floor)
  }
}
