/** `Position` (src/layout/position.rs): a 2D point whose coordinates are
    always kept inside `Distance::MIN..=Distance::MAX`. */
module Positions {
  import opened Ints
  import D = Distance

  datatype Position = Position(x: i32, y: i32) {

    /** Both coordinates lie inside the distance margin. */
    predicate Valid() {
      D.MIN <= x <= D.MAX && D.MIN <= y <= D.MAX
    }

    /** `Position::new`: clamps both coordinates. */
    static function New(x: i32, y: i32): (p: Position)
      ensures p.Valid()
      ensures D.Saturates(x, D.MIN, D.MAX, p.x) && D.Saturates(y, D.MIN, D.MAX, p.y)
    {
      Position(D.Clamp(x), D.Clamp(y))
    }

    /** The derived `Default`: the origin. */
    static function Default(): (p: Position)
      ensures p.Valid() && p.x == 0 && p.y == 0
    {
      Position(0, 0)
    }

    /** The value `set_x` leaves behind: `x` clamped, `y` untouched. */
    function SetX(nx: i32): (p: Position)
      ensures p.x == D.Clamp(nx) && p.y == y
      ensures Valid() ==> p.Valid()
    {
      this.(x := D.Clamp(nx))
    }

    /** The value `set_y` leaves behind: `y` clamped, `x` untouched. */
    function SetY(ny: i32): (p: Position)
      ensures p.y == D.Clamp(ny) && p.x == x
      ensures Valid() ==> p.Valid()
    {
      this.(y := D.Clamp(ny))
    }

    /** `as_tuple`. */
    function AsTuple(): (i32, i32) {
      (x, y)
    }

    /** `as_tuple_u32`: each coordinate through `clamp_to_u32`. */
    function AsTupleU32(): (u32, u32) {
      (D.ClampToU32(x), D.ClampToU32(y))
    }

    /** `as_tuple_i16`: each coordinate through `clamp_to_i16`. */
    function AsTupleI16(): (i16, i16) {
      (D.ClampToI16(x), D.ClampToI16(y))
    }

    /** `as_tuple_usize`: each coordinate through `clamp_positive_to_usize`. */
    function AsTupleUsize(): (t: (usize, usize))
      ensures 1 <= t.0 && 1 <= t.1
    {
      (D.ClampPositiveToUsize(x), D.ClampPositiveToUsize(y))
    }

    /** The derived `Ord`: lexicographic on `(x, y)`, the field order. */
    predicate LessEq(other: Position) {
      x < other.x || (x == other.x && y <= other.y)
    }
  }

  /** `from_tuple` (and `From<(i32, i32)>`): clamps twice, which is clamping
      once. */
  function FromTuple(t: (i32, i32)): (p: Position)
    ensures p.Valid() && p.AsTuple() == (D.Clamp(t.0), D.Clamp(t.1))
  {
    Position.New(D.Clamp(t.0), D.Clamp(t.1))
  }

  /** `from_tuple_u32` (and `From<(u32, u32)>`). */
  function FromTupleU32(t: (u32, u32)): (p: Position)
    ensures p.Valid()
    ensures p.x as int == if t.0 as int <= D.MAX as int then t.0 as int else D.MAX as int
    ensures p.y as int == if t.1 as int <= D.MAX as int then t.1 as int else D.MAX as int
  {
    Position.New(D.ClampFromU32(t.0), D.ClampFromU32(t.1))
  }

  /** `from_tuple_i16` (and `From<(i16, i16)>`). */
  function FromTupleI16(t: (i16, i16)): (p: Position)
    ensures p.Valid() && p.x == t.0 && p.y == t.1
  {
    Position.New(D.ClampFromI16(t.0), D.ClampFromI16(t.1))
  }

  /** `from_tuple_usize`. */
  function FromTupleUsize(t: (usize, usize)): (p: Position)
    ensures p.Valid() && 1 <= p.x && 1 <= p.y
    ensures p.x as int == if t.0 == 0 then 1 else if t.0 as int <= D.MAX as int then t.0 as int else D.MAX as int
    ensures p.y as int == if t.1 == 0 then 1 else if t.1 as int <= D.MAX as int then t.1 as int else D.MAX as int
  {
    Position.New(D.ClampPositiveFromUsize(t.0), D.ClampPositiveFromUsize(t.1))
  }

  /** `set_x` changes only `x`, `set_y` only `y`; setting both reaches
      `new`. */
  lemma SettersIndependent(p: Position, nx: i32, ny: i32)
    ensures p.SetX(nx).SetY(ny) == p.SetY(ny).SetX(nx) == Position.New(nx, ny)
    ensures p.Valid() ==> p.SetX(p.x) == p && p.SetY(p.y) == p
  {
  }

  /** `from_tuple(as_tuple(p)) == p` for every valid position. */
  lemma TupleRoundTrip(p: Position)
    requires p.Valid()
    ensures FromTuple(p.AsTuple()) == p
  {
  }

  /** Every `i16` pair survives the trip through a position. */
  lemma TupleI16RoundTrip(t: (i16, i16))
    ensures FromTupleI16(t).AsTupleI16() == t
  {
  }

  /** A `u32` pair survives the trip exactly when both components are at
      most `MAX`. */
  lemma TupleU32RoundTrip(t: (u32, u32))
    ensures FromTupleU32(t).AsTupleU32() == t <==> t.0 <= D.MAX && t.1 <= D.MAX
  {
  }

  /** A `usize` pair survives the trip exactly when both components lie in
      `1..=MAX`. */
  lemma TupleUsizeRoundTrip(t: (usize, usize))
    ensures FromTupleUsize(t).AsTupleUsize() == t <==>
      1 <= t.0 <= D.MAX && 1 <= t.1 <= D.MAX
  {
  }

  /** The derived ordering is a total order. */
  lemma LessEqIsTotalOrder(a: Position, b: Position, c: Position)
    ensures a.LessEq(a)
    ensures a.LessEq(b) && b.LessEq(a) ==> a == b
    ensures a.LessEq(b) && b.LessEq(c) ==> a.LessEq(c)
    ensures a.LessEq(b) || b.LessEq(a)
  {
  }
}
