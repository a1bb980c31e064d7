/** The two numeric helpers of the simulator: `clamp` and the `Math.max(0, ...)` floor. */
module Numeric {

  function Min(a: real, b: real): real { if a <= b then a else b }

  function Max(a: real, b: real): real { if a >= b then a else b }

  /** `clamp(x, a, b)` as the simulator defines it: `max(a, min(b, x))`.
      With an empty range (a > b) the lower bound wins. */
  function Clamp(x: real, a: real, b: real): (r: real)
    ensures a <= b ==> a <= r <= b
    ensures a <= x <= b ==> r == x
    ensures x <= a ==> r == a
    ensures a <= b <= x ==> r == b
  {
    Max(a, Min(b, x))
  }

  /** The same `clamp`, applied to the integer positions of the sliders. */
  function ClampInt(x: int, a: int, b: int): (r: int)
    ensures a <= b ==> a <= r <= b
    ensures a <= x <= b ==> r == x
    ensures x <= a ==> r == a
    ensures a <= b <= x ==> r == b
  {
    if b <= x then (if a >= b then a else b) else if a >= x then a else x
  }

  /** `Math.max(0, x)`: the floor every pool and PM component passes through. */
  function Floor0(x: real): (r: real)
    ensures r >= 0.0 && r >= x
    ensures x >= 0.0 ==> r == x
  {
    Max(0.0, x)
  }
}
