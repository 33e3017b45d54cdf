/** The 64-bit conversions of the block-number and size arithmetic. */
module Words {
  const TWO63 := 0x8000_0000_0000_0000
  const TWO64 := 0x1_0000_0000_0000_0000

  /** Conversion to `size_t`. */
  function U64(x: int): (r: int)
    ensures 0 <= r < TWO64
    ensures 0 <= x < TWO64 ==> r == x
  {
    x % TWO64
  }

  /** Conversion to `BlockNumber`. */
  function I64(x: int): (r: int)
    ensures -TWO63 <= r < TWO63
    ensures -TWO63 <= x < TWO63 ==> r == x
    ensures TWO63 <= x < TWO64 ==> r == x - TWO64
  {
    if U64(x) < TWO63 then U64(x) else U64(x) - TWO64
  }
}
