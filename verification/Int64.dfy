/** Go's int64: wrap-around addition and multiplication, and division toward zero. */
module Int64 {
  const MAX_INT64: int := 0x7FFF_FFFF_FFFF_FFFF
  const MIN_INT64: int := -0x8000_0000_0000_0000

  predicate Fits(x: int) {
    MIN_INT64 <= x <= MAX_INT64
  }

  /** The int64 with the same 64 low bits. */
  function Wrap(x: int): (r: int)
    ensures Fits(r)
    ensures r == x <==> Fits(x)
  {
    (x - MIN_INT64) % 0x1_0000_0000_0000_0000 + MIN_INT64
  }

  /** Division toward zero. */
  function Quot(x: int, y: int): (q: int)
    requires y != 0
    ensures x >= 0 && y > 0 ==> q == x / y
  {
    if x >= 0 then x / y else -((-x) / y)
  }
}
