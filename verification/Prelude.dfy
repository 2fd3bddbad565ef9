/** Machine integers of the program, and the Option and Result datatypes. */
module Prelude {

  const U8_MAX: nat := 0xFF
  const U16_MAX: nat := 0xFFFF
  const U32_MAX: nat := 0xFFFF_FFFF
  const U64_MAX: nat := 0xFFFF_FFFF_FFFF_FFFF
  const U128_MAX: nat := 0xFFFF_FFFF_FFFF_FFFF_FFFF_FFFF_FFFF_FFFF
  const I64_MAX: int := 0x7FFF_FFFF_FFFF_FFFF
  const I64_MIN: int := -0x8000_0000_0000_0000

  type u16 = x: int | 0 <= x <= U16_MAX witness 0
  type u32 = x: int | 0 <= x <= U32_MAX witness 0
  type u64 = x: int | 0 <= x <= U64_MAX witness 0
  type i64 = x: int | I64_MIN <= x <= I64_MAX witness 0

  datatype Option<+T> = None | Some(value: T)

  datatype Result<+T, +E> = Ok(value: T) | Err(error: E)

  /** Unsigned `saturating_sub`. */
  function SaturatingSub(a: nat, b: nat): nat {
    if a < b then 0 else a - b
  }

  /** Signed 64-bit `saturating_sub`. */
  function SaturatingSubI64(a: int, b: int): int {
    if a - b > I64_MAX then I64_MAX
    else if a - b < I64_MIN then I64_MIN
    else a - b
  }

  function Max(a: int, b: int): int {
    if a < b then b else a
  }

  lemma TimesDifference(b: int, m: int, p: int, r: int)
    ensures b * (m - p - r) == b * m - b * p - b * r
  {
  }

  lemma TimesMonotonic(b: nat, m: int, n: int)
    requires m <= n
    ensures b * m <= b * n
  {
  }
}
