/** `Zone` (src/layout/zone.rs): a position and a size. The two `Size`
    setters a zone delegates to are supplied by the caller, since
    src/layout/size.rs is not part of this model. */
module Zones {
  import opened Ints
  import opened Wrappers
  import opened Positions
  import opened Sizes

  /** A zone: a position and a size (public fields `p` and `s`). */
  class Zone {
    var p: Position
    var s: Size

    /** `Zone::new`. */
    constructor (position: Position, size: Size)
      ensures p == position && s == size
    {
      p := position;
      s := size;
    }

    /** `position()`. */
    function GetPosition(): Position
      reads this
    {
      p
    }

    /** `size()`. */
    function GetSize(): Size
      reads this
    {
      s
    }

    /** `x()`, delegated to the position. */
    function X(): i32
      reads this
    {
      p.x
    }

    /** `y()`, delegated to the position. */
    function Y(): i32
      reads this
    {
      p.y
    }

    /** `mut_position`: replaces the position in place. */
    method MutPosition(position: Position)
      modifies this
      ensures p == position && s == old(s)
    {
      p := position;
    }

    /** `set_position`: a by-value builder; the zone is copied, the copy
        gets `position` when one is given, and the receiver is left as
        it was. */
    method SetPosition(position: Option<Position>) returns (z: Zone)
      ensures fresh(z)
      ensures z.p == (if position.Some? then position.value else p)
      ensures z.s == s
    {
      z := new Zone(p, s);
      if position.Some? {
        z.p := position.value;
      }
    }

    /** `set_size`: the size counterpart of `set_position`. */
    method SetSize(size: Option<Size>) returns (z: Zone)
      ensures fresh(z)
      ensures z.s == (if size.Some? then size.value else s)
      ensures z.p == p
    {
      z := new Zone(p, s);
      if size.Some? {
        z.s := size.value;
      }
    }

    /** `mut_size` AS WRITTEN: its receiver is `mut self` taken by value,
        so the assignment lands on a copy that is then dropped. The
        caller's zone is left unchanged. */
    method MutSize(size: Size)
      ensures unchanged(this)
    {
      var copy := new Zone(p, s);
      copy.s := size;
    }

    /** `mut_size` as evidently intended (`&mut self`): replaces the size in
        place and keeps the position. */
    method ReplaceSize(size: Size)
      modifies this
      ensures s == size && p == old(p)
    {
      s := size;
    }

    /** `set_x`: clamps through `Position::set_x`; the size is untouched. */
    method SetX(x: i32)
      modifies this
      ensures p == old(p).SetX(x) && s == old(s)
      ensures old(p).Valid() ==> p.Valid()
    {
      p := p.SetX(x);
    }

    /** `set_y`: clamps through `Position::set_y`; the size is untouched. */
    method SetY(y: i32)
      modifies this
      ensures p == old(p).SetY(y) && s == old(s)
      ensures old(p).Valid() ==> p.Valid()
    {
      p := p.SetY(y);
    }

    /** `set_w`: delegates to `Size::set_w` (given here as `sizeSetW`); the
        position is untouched. */
    method SetW(width: i32, sizeSetW: (Size, i32) -> Size)
      modifies this
      ensures s == sizeSetW(old(s), width) && p == old(p)
    {
      s := sizeSetW(s, width);
    }

    /** `set_h`: delegates to `Size::set_h` (given here as `sizeSetH`); the
        position is untouched. */
    method SetH(height: i32, sizeSetH: (Size, i32) -> Size)
      modifies this
      ensures s == sizeSetH(old(s), height) && p == old(p)
    {
      s := sizeSetH(s, height);
    }
  }

  /** The `mut_size` discrepancy on a concrete zone: asking for a different
      size through the method as written leaves the old size in place, while
      the intended method stores it. */
  method MutSizeIsLost() returns (before: Size, requested: Size, afterAsWritten: Size, afterIntended: Size)
    ensures requested != before
    ensures afterAsWritten == before
    ensures afterIntended == requested
  {
    before := Size(10, 20);
    requested := Size(30, 40);
    var z := new Zone(Position.Default(), before);
    z.MutSize(requested);
    afterAsWritten := z.s;
    z.ReplaceSize(requested);
    afterIntended := z.s;
  }
}
