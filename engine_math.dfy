/**
 * The small part of the engine's math library that the game logic relies on:
 * the `Mathf` helpers and the vertical (y) axis of an axis-aligned `Bounds` box.
 * Only the y axis is modelled, because the shaft and the platform read nothing
 * but `min.y`, `max.y` and `size.y` of their boxes.
 */
module EngineMath {

  /** Mathf.Epsilon: the smallest positive single-precision value (2^-149). */
  const Epsilon: real := 1.401298e-45

  /** Mathf.Min on two values. */
  function Min(a: real, b: real): (r: real)
    ensures r <= a && r <= b
    ensures r == a || r == b
  {
    if a < b then a else b
  }

  /** Mathf.Max on two values. */
  function Max(a: real, b: real): (r: real)
    ensures a <= r && b <= r
    ensures r == a || r == b
  {
    if a > b then a else b
  }

  /** Mathf.Clamp01: values below 0 become 0, values above 1 become 1. */
  function Clamp01(x: real): (r: real)
    ensures 0.0 <= r <= 1.0
    ensures 0.0 <= x <= 1.0 ==> r == x
    ensures x < 0.0 ==> r == 0.0
    ensures x > 1.0 ==> r == 1.0
  {
    if x < 0.0 then 0.0 else if x > 1.0 then 1.0 else x
  }

  /** The y extent of a `Bounds` box. */
  datatype YBounds = YBounds(min: real, max: real)
  {
    /** size.y of the box. */
    function Height(): real { max - min }

    /** Bounds.Encapsulate(point): grow the box so that it contains `y`. */
    function EncapsulatePoint(y: real): (b: YBounds)
      ensures b.min <= y <= b.max
      ensures b.min <= min && max <= b.max
      ensures b.min == min || b.min == y
      ensures b.max == max || b.max == y
    {
      YBounds(Min(min, y), Max(max, y))
    }

    /** Bounds.Encapsulate(bounds): the smallest box holding both boxes. */
    function Encapsulate(other: YBounds): (b: YBounds)
      ensures b.min <= min && b.min <= other.min
      ensures b.max >= max && b.max >= other.max
      ensures b.min == min || b.min == other.min
      ensures b.max == max || b.max == other.max
    {
      YBounds(Min(min, other.min), Max(max, other.max))
    }

    /** `bounds.center += offset`: the same box moved up by `dy`. */
    function Translate(dy: real): YBounds
    {
      YBounds(min + dy, max + dy)
    }
  }

  /** `new Bounds()`: the zero-size box at the origin. */
  const ZeroBounds: YBounds := YBounds(0.0, 0.0)
}
