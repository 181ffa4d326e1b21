/**
  The two JavaScript number idioms the game relies on, over exact rationals:
  `Math.round` and `Math.floor(Math.random() * n)`. Every `Math.random()` draw is a
  parameter `u` with `0 <= u < 1`.
*/
module JsMath {

  /** `Math.round(x)`: the nearest integer, with halves rounded up. */
  function Round(x: real): (r: int)
    ensures x - 0.5 < r as real <= x + 0.5
  {
    (x + 0.5).Floor
  }

  /** `Math.floor(u * n)` for a draw `u` in [0, 1): an index in [0, n). */
  function RandomIndex(n: int, u: real): (k: int)
    requires n >= 1 && 0.0 <= u < 1.0
    ensures 0 <= k < n
  {
    (u * n as real).Floor
  }
}
