/** Go's fixed-width signed 64-bit integers, modelled over Dafny's unbounded `int`. */
module GoInt {

  const MinInt64: int := -0x8000_0000_0000_0000
  const MaxInt64: int := 0x7FFF_FFFF_FFFF_FFFF
  const TwoTo64: int := 0x1_0000_0000_0000_0000

  predicate IsInt64(x: int) {
    MinInt64 <= x <= MaxInt64
  }

  /** Go's `int64` (and every named type over it, such as `time.Duration`). */
  type Int64 = x: int | IsInt64(x)

  /**
   * The two's-complement wrap-around Go applies to the result of `+`, `-`
   * and `*` on `int64`: the unique int64 congruent to `x` modulo 2^64.
   */
  function Wrap64(x: int): (r: Int64)
    ensures IsInt64(x) ==> r == x
    ensures (x - r) % TwoTo64 == 0
  {
    (x - MinInt64) % TwoTo64 + MinInt64
  }
}
