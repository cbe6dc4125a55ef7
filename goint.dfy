/** Go's signed 64-bit integer arithmetic, written out over unbounded integers. */
module GoInt {

  const MinInt64: int := -0x8000_0000_0000_0000
  const MaxInt64: int := 0x7FFF_FFFF_FFFF_FFFF
  const TwoTo64: int := 0x1_0000_0000_0000_0000

  /** The values of a Go `int64`. */
  type Int64 = x: int | MinInt64 <= x <= MaxInt64

  /** The `int64` that Go's two's-complement arithmetic leaves for the mathematical value `x`. */
  function Wrap64(x: int): (r: Int64)
    ensures MinInt64 <= x <= MaxInt64 ==> r == x
    ensures (x - r) % TwoTo64 == 0
  {
    (x - MinInt64) % TwoTo64 + MinInt64
  }

  /** Go's integer division `a / b` for a positive divisor: the quotient is truncated toward zero. */
  function Quo(a: int, b: int): int
    requires b > 0
  {
    if a >= 0 then a / b else -((-a) / b)
  }
}
