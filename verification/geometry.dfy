/**
 * Pixel geometry: truncation of a real coordinate to an integer pixel
 * (Python's `int()` on a float) and integer corner-form boxes.
 */
module Geometry {

  /**
   * Truncation toward zero, the behaviour of Python's `int()` on a float:
   * the integer between 0 and `x` (inclusive) that is less than one unit
   * away from `x`.
   */
  function Trunc(x: real): (n: int)
    ensures 0.0 <= x ==> 0 <= n && n as real <= x < n as real + 1.0
    ensures x < 0.0 ==> n <= 0 && n as real - 1.0 < x <= n as real
  {
    if x >= 0.0 then x.Floor else -((-x).Floor)
  }

  /** Truncation is monotone. */
  lemma TruncMonotone(x: real, y: real)
    ensures x <= y ==> Trunc(x) <= Trunc(y)
  {
  }

  /** Truncation is odd: it commutes with negation. */
  lemma TruncOdd(x: real)
    ensures Trunc(-x) == -Trunc(x)
  {
  }

  /** Whole numbers are fixed points of truncation. */
  lemma TruncOfWhole(n: int)
    ensures Trunc(n as real) == n
  {
  }

  /**
   * Truncation is not flooring: on a negative non-whole coordinate the two
   * differ by one pixel.
   */
  lemma TruncIsNotFloor()
    ensures Trunc(-0.5) == 0 && (-0.5).Floor == -1
    ensures Trunc(-2.5) == -2 && (-2.5).Floor == -3
  {
  }

  /** An axis-aligned box in corner form, `[x1, y1, x2, y2]`. */
  datatype Box = Box(x1: int, y1: int, x2: int, y2: int)
  {
    /** `(x2 - x1) * (y2 - y1)`; negative when exactly one side is reversed. */
    function Area(): int
    {
      (x2 - x1) * (y2 - y1)
    }

    /** Both sides have non-negative extent. */
    predicate Ordered()
    {
      x1 <= x2 && y1 <= y2
    }
  }

  /** A box whose corners are ordered has a non-negative area. */
  lemma OrderedBoxArea(b: Box)
    requires b.Ordered()
    ensures b.Area() >= 0
    ensures b.Area() == 0 <==> b.x1 == b.x2 || b.y1 == b.y2
  {
  }
}
