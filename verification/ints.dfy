/** Rust's fixed-width integer types as subsets of `int`. Every cast the
    modelled code performs is shown in-range by these types; none wraps. */
module Ints {

  const I16_MIN: int := -0x8000
  const I16_MAX: int := 0x7FFF
  const I32_MIN: int := -0x8000_0000
  const I32_MAX: int := 0x7FFF_FFFF
  const U16_MAX: int := 0xFFFF
  const U32_MAX: int := 0xFFFF_FFFF
  const U64_MAX: int := 0xFFFF_FFFF_FFFF_FFFF

  type u8 = x: int | 0 <= x < 0x100
  type u16 = x: int | 0 <= x <= U16_MAX
  type u32 = x: int | 0 <= x <= U32_MAX
  type u64 = x: int | 0 <= x <= U64_MAX
  /** `usize` on a 64-bit target. */
  type usize = u64
  type i16 = x: int | I16_MIN <= x <= I16_MAX
  type i32 = x: int | I32_MIN <= x <= I32_MAX

  function Max(a: int, b: int): int { if a >= b then a else b }
}
