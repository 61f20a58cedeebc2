/** `Size`. src/layout/size.rs is not part of this model: a size is
    treated as a plain width and height, with no invariant of its own. */
module Sizes {
  import opened Ints

  datatype Size = Size(w: i32, h: i32)

  /** A size built from a pair of `u16` (terminal columns and rows). Both
      values lie in `0..=u16::MAX`, inside every distance range. */
  function FromU16Pair(w: u16, h: u16): (s: Size)
    ensures s.w == w && s.h == h
  {
    Size(w, h)
  }
}
