/** `Distance` (src/layout/distance.rs): saturating conversions that keep
    horizontal and vertical distances inside a margin of half the `i32`
    range, and saturating casts to and from `u32`, `i16` and `usize`. */
module Distance {
  import opened Ints

  /** `i32::MAX / 2` and `i32::MIN / 2`. Both quotients are exact under
      Rust's truncating division and Dafny's Euclidean one alike, since the
      dividend of `MAX` is positive and that of `MIN` even. */
  const MAX: i32 := I32_MAX / 2
  const MIN: i32 := I32_MIN / 2

  /** `r` is `d` saturated to `[lo, hi]`. */
  predicate Saturates(d: int, lo: int, hi: int, r: int) {
    && lo <= r <= hi
    && (d < lo ==> r == lo)
    && (d > hi ==> r == hi)
    && (lo <= d <= hi ==> r == d)
  }

  /** `clamp`: to `MIN..=MAX`. */
  function Clamp(d: i32): (r: i32)
    ensures Saturates(d, MIN, MAX, r)
  {
    if d < MIN then MIN
    else if d > MAX then MAX
    else d
  }

  /** `clamp_non_negative`: to `0..=MAX`. */
  function ClampNonNegative(d: i32): (r: i32)
    ensures Saturates(d, 0, MAX, r)
  {
    if d < 0 then 0
    else if d > MAX then MAX
    else d
  }

  /** `clamp_positive`: to `1..=MAX`. */
  function ClampPositive(d: i32): (r: i32)
    ensures Saturates(d, 1, MAX, r)
  {
    if d < 1 then 1
    else if d > MAX then MAX
    else d
  }

  /** `clamp_from_u32`: `min(d, MAX)`. */
  function ClampFromU32(d: u32): (r: i32)
    ensures Saturates(d, 0, MAX, r)
  {
    if d > MAX as int then MAX else d
  }

  /** `clamp_positive_from_u32`: zero becomes 1, then `min(d, MAX)`. */
  function ClampPositiveFromU32(d: u32): (r: i32)
    ensures Saturates(d, 1, MAX, r)
  {
    if d == 0 then 1
    else if d > MAX as int then MAX
    else d
  }

  /** `clamp_to_u32`: `clamp_non_negative` cast to `u32`. */
  function ClampToU32(d: i32): (r: u32)
    ensures Saturates(d, 0, MAX, r)
  {
    ClampNonNegative(d)
  }

  /** `clamp_positive_to_u32`: `clamp_positive` cast to `u32`. */
  function ClampPositiveToU32(d: i32): (r: u32)
    ensures Saturates(d, 1, MAX, r)
  {
    ClampPositive(d)
  }

  /** `clamp_from_i16`: the widening cast; every `i16` is inside the margin. */
  function ClampFromI16(d: i16): (r: i32)
    ensures r == d && MIN <= r <= MAX
  {
    d
  }

  /** `clamp_non_negative_from_i16`: negatives become 0. */
  function ClampNonNegativeFromI16(d: i16): (r: i32)
    ensures Saturates(d, 0, I16_MAX, r)
  {
    if d < 0 then 0 else d
  }

  /** `clamp_positive_from_i16`: values below 1 become 1. */
  function ClampPositiveFromI16(d: i16): (r: i32)
    ensures Saturates(d, 1, I16_MAX, r)
  {
    if d < 1 then 1 else d
  }

  /** `clamp_to_i16`: to `i16::MIN..=i16::MAX`. */
  function ClampToI16(d: i32): (r: i16)
    ensures Saturates(d, I16_MIN, I16_MAX, r)
  {
    if d < I16_MIN then I16_MIN
    else if d > I16_MAX then I16_MAX
    else d
  }

  /** `clamp_non_negative_to_i16`: to `0..=i16::MAX`. */
  function ClampNonNegativeToI16(d: i32): (r: i16)
    ensures Saturates(d, 0, I16_MAX, r)
  {
    if d < 0 then 0
    else if d > I16_MAX then I16_MAX
    else d
  }

  /** `clamp_positive_to_i16`: to `1..=i16::MAX`. */
  function ClampPositiveToI16(d: i32): (r: i16)
    ensures Saturates(d, 1, I16_MAX, r)
  {
    if d < 1 then 1
    else if d > I16_MAX then I16_MAX
    else d
  }

  /** `clamp_from_usize`: `min(d, MAX)`. */
  function ClampFromUsize(d: usize): (r: i32)
    ensures Saturates(d, 0, MAX, r)
  {
    if d > MAX as int then MAX else d
  }

  /** `clamp_positive_from_usize`: zero becomes 1, then `min(d, MAX)`. */
  function ClampPositiveFromUsize(d: usize): (r: i32)
    ensures Saturates(d, 1, MAX, r)
  {
    if d == 0 then 1
    else if d > MAX as int then MAX
    else d
  }

  /** `clamp_to_usize`: `clamp_non_negative` cast to `usize`. */
  function ClampToUsize(d: i32): (r: usize)
    ensures Saturates(d, 0, MAX, r)
  {
    ClampNonNegative(d)
  }

  /** `clamp_positive_to_usize`: `clamp_positive` cast to `usize`. */
  function ClampPositiveToUsize(d: i32): (r: usize)
    ensures Saturates(d, 1, MAX, r)
  {
    ClampPositive(d)
  }

  /** The values of the bounds, and the margin they keep: adding or
      subtracting two in-range distances never overflows `i32`. */
  lemma Margin(a: int, b: int)
    requires MIN <= a <= MAX && MIN <= b <= MAX
    ensures MAX == 1073741823 && MIN == -1073741824 && MIN == -MAX - 1
    ensures I32_MIN <= a + b <= I32_MAX
    ensures I32_MIN <= a - b <= I32_MAX
  {
  }

  /** A saturation result is unique, so `Saturates` pins each clamp down. */
  lemma SaturatesUnique(d: int, lo: int, hi: int, r1: int, r2: int)
    requires Saturates(d, lo, hi, r1) && Saturates(d, lo, hi, r2)
    ensures r1 == r2
  {
  }

  /** Clamping twice is clamping once. */
  lemma Idempotent(d: i32)
    ensures Clamp(Clamp(d)) == Clamp(d)
    ensures ClampNonNegative(ClampNonNegative(d)) == ClampNonNegative(d)
    ensures ClampPositive(ClampPositive(d)) == ClampPositive(d)
    ensures ClampToI16(ClampToI16(d)) == ClampToI16(d)
  {
  }

  /** Clamping preserves order. */
  lemma Monotone(a: i32, b: i32)
    requires a <= b
    ensures Clamp(a) <= Clamp(b)
    ensures ClampNonNegative(a) <= ClampNonNegative(b)
    ensures ClampPositive(a) <= ClampPositive(b)
    ensures ClampToI16(a) <= ClampToI16(b)
    ensures ClampToU32(a) <= ClampToU32(b)
  {
  }

  /** The narrower clamps are the wider clamp followed by a floor. */
  lemma Nesting(d: i32)
    ensures ClampNonNegative(d) == Max(Clamp(d), 0)
    ensures ClampPositive(d) == Max(Clamp(d), 1)
    ensures ClampPositive(d) == Max(ClampNonNegative(d), 1)
  {
  }

  /** Casting out and back in: out of `u32`/`usize` and back lands on the
      non-negative clamp, out of `i16` and back is the identity, and the
      positive casts round-trip on `1..=MAX`. */
  lemma CastRoundTrips(d: i32, w: i16, u: u32)
    ensures ClampFromU32(ClampToU32(d)) == ClampNonNegative(d)
    ensures ClampFromUsize(ClampToUsize(d)) == ClampNonNegative(d)
    ensures ClampPositiveFromU32(ClampPositiveToU32(d)) == ClampPositive(d)
    ensures ClampPositiveFromUsize(ClampPositiveToUsize(d)) == ClampPositive(d)
    ensures ClampToI16(ClampFromI16(w)) == w
    ensures u <= MAX ==> ClampToU32(ClampFromU32(u)) == u
  {
  }

  /** The boundary assertions of the module's `clamping` test. */
  lemma ClampingBoundaries()
    ensures Clamp(99) == 99 && Clamp(-99) == -99
    ensures Clamp(I32_MAX) == MAX && Clamp(I32_MIN) == MIN
    ensures ClampNonNegative(I32_MAX) == MAX && ClampNonNegative(I32_MIN) == 0
    ensures ClampPositive(I32_MAX) == MAX && ClampPositive(I32_MIN) == 1
    ensures ClampFromU32(U32_MAX) == MAX && ClampFromU32(0) == 0
    ensures ClampPositiveFromU32(U32_MAX) == MAX && ClampPositiveFromU32(0) == 1
    ensures ClampToU32(I32_MAX) == MAX && ClampToU32(I32_MIN) == 0
    ensures ClampPositiveToU32(I32_MAX) == MAX && ClampPositiveToU32(I32_MIN) == 1
    ensures ClampFromI16(I16_MAX) == I16_MAX && ClampFromI16(I16_MIN) == I16_MIN
    ensures ClampNonNegativeFromI16(I16_MAX) == I16_MAX
    ensures ClampNonNegativeFromI16(I16_MIN) == 0
    ensures ClampPositiveFromI16(I16_MAX) == I16_MAX
    ensures ClampPositiveFromI16(I16_MIN) == 1
    ensures ClampToI16(I32_MAX) == I16_MAX && ClampToI16(I32_MIN) == I16_MIN
    ensures ClampNonNegativeToI16(I32_MAX) == I16_MAX
    ensures ClampNonNegativeToI16(I32_MIN) == 0
    ensures ClampPositiveToI16(I32_MAX) == I16_MAX
    ensures ClampPositiveToI16(I32_MIN) == 1
    ensures ClampFromUsize(U64_MAX) == MAX && ClampFromUsize(0) == 0
    ensures ClampPositiveFromUsize(U64_MAX) == MAX && ClampPositiveFromUsize(0) == 1
    ensures ClampToUsize(I32_MAX) == MAX && ClampToUsize(I32_MIN) == 0
    ensures ClampPositiveToUsize(I32_MAX) == MAX && ClampPositiveToUsize(I32_MIN) == 1
  {
  }
}
