/** The unsigned 8-bit values that the analyser writes into a Uint8Array:
    time-domain samples centred on 128, or spectrum magnitudes. */
module Samples {

  /** One element of a Uint8Array. */
  type Byte = x: int | 0 <= x < 256

  function Sq(x: int): int { x * x }

  /** Squaring is monotone on non-negative integers. */
  lemma SqMonotone(x: int, y: int)
    requires 0 <= x <= y
    ensures Sq(x) <= Sq(y)
  {
    assert x * x <= x * y <= y * y;
  }

  /** Multiplying both sides of an inequality by a non-negative factor. */
  lemma MulMonotone(a: int, b: int, c: int)
    requires a <= b && 0 <= c
    ensures a * c <= b * c
  {
  }
}
