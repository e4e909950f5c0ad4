/** Go's int64 and its two's-complement wrap-around. */
module Int64s {

  const INT64_MIN: int := -0x8000_0000_0000_0000
  const INT64_LIMIT: int := 0x8000_0000_0000_0000
  const TWO_TO_64: int := 0x1_0000_0000_0000_0000

  type Int64 = x: int | -0x8000_0000_0000_0000 <= x < 0x8000_0000_0000_0000

  predicate InInt64(x: int) {
    INT64_MIN <= x < INT64_LIMIT
  }

  /** The int64 value Go's arithmetic leaves behind for the mathematical result x. */
  function Wrap64(x: int): (r: Int64)
    ensures InInt64(x) ==> r == x
    ensures (x - r) % TWO_TO_64 == 0
  {
    (x + INT64_LIMIT) % TWO_TO_64 - INT64_LIMIT
  }
}
