/** Products grow with their factors. */
module Arithmetic {
  lemma ScalesUp(base: int, x: int, y: int)
    requires base >= 0 && x <= y
    ensures base * x <= base * y && x * base <= y * base
  {}

  lemma ProductIsMonotone(a: real, b: real, x: real)
    requires a <= b && x >= 0.0
    ensures a * x <= b * x
  {}
}
