/** Saturating and wrapping 64-bit arithmetic. */
module Int64 {
  import opened MuxTypes

  const I64_MIN := -0x8000_0000_0000_0000
  const I64_MAX := 0x7FFF_FFFF_FFFF_FFFF
  type i64 = x: int | I64_MIN <= x <= I64_MAX

  function Sat(x: int): i64 { Max(I64_MIN, Min(x, I64_MAX)) }

  /** Two's complement wrap-around of a non-negative difference. */
  function Wrap(x: int): i64
    requires 0 <= x < 0x1_0000_0000_0000_0000
  { if x > I64_MAX then x - 0x1_0000_0000_0000_0000 else x }
}
