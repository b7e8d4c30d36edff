/** Small shared vocabulary: an optional value and the scalar helpers that the
    Kotlin, C++ and Python code take from their standard libraries
    (kotlin.math.min/max, std::min/max, coerceIn, Float.toInt, (int) casts). */
module Common {

  datatype Option<+T> = None | Some(value: T)

  function RMin(a: real, b: real): real { if a <= b then a else b }
  function RMax(a: real, b: real): real { if a >= b then a else b }
  function IMin(a: int, b: int): int { if a <= b then a else b }
  function IMax(a: int, b: int): int { if a >= b then a else b }
  function Abs(x: real): real { if x < 0.0 then -x else x }

  /** `coerceIn(0f, 1f)`, also written `max(0f, min(1f, x))`. */
  function Clamp01(x: real): (r: real)
    ensures 0.0 <= r <= 1.0
    ensures 0.0 <= x <= 1.0 ==> r == x
    ensures x < 0.0 ==> r == 0.0
    ensures x > 1.0 ==> r == 1.0
  {
    if x < 0.0 then 0.0 else if x > 1.0 then 1.0 else x
  }

  /** Float-to-int conversion as Kotlin's `toInt()` and C++'s `(int)` cast
      perform it: truncation toward zero. */
  function ToInt(x: real): (n: int)
    ensures 0.0 <= x ==> 0 <= n && n as real <= x < n as real + 1.0
    ensures x < 0.0 ==> n <= 0 && n as real - 1.0 < x <= n as real
  {
    if x >= 0.0 then x.Floor else -((-x).Floor)
  }
}
