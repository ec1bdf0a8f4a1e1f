/** Rounding up, as math.ceil does it, and spans of time. */
module Numbers {

  type Span = t: real | 0.0 <= t witness 0.0

  function Ceil(x: real): (r: int)
    ensures r as real - 1.0 < x <= r as real
  {
    if x.Floor as real == x then x.Floor else x.Floor + 1
  }
}
