/** `EventTimeStamp` (src/event/time.rs and src/core/events/time.rs, two
    identical declarations): the time an event occurred, a non-zero count of
    microseconds relative to a backend-chosen origin. */
module Time {
  import opened Ints
  import opened Wrappers

  type NonZeroU64 = x: int | 1 <= x <= U64_MAX witness 1

  datatype EventTimeStamp = EventTimeStamp(micros: NonZeroU64)

  /** `NonZeroU64::new`: `None` for zero. */
  function NonZero(x: u64): (r: Option<NonZeroU64>)
    ensures r.Some? <==> x != 0
    ensures r.Some? ==> r.value == x
  {
    if x == 0 then None else Some(x)
  }

  /** `EventTimeStamp::new` as both files write it without their unchecked
      feature: `NonZeroU64::new(µs).or(NonZeroU64::new(1)).unwrap()`. */
  function New(us: u64): (t: EventTimeStamp)
    ensures us == 0 ==> t.micros == 1
    ensures us != 0 ==> t.micros == us
  {
    var r := NonZero(us).Or(NonZero(1));
    EventTimeStamp(r.value)
  }

  /** The `unsafe_constructors` branch of src/event/time.rs:
      `new_unchecked(if µs == 0 { 1 } else { µs })`. */
  function NewUnchecked(us: u64): EventTimeStamp {
    EventTimeStamp(if us == 0 then 1 else us)
  }

  /** The branch of src/core/events/time.rs without the `safe` feature:
      `NonZeroU64::new(µs).unwrap_or(1)`. */
  function NewUnwrapOr(us: u64): EventTimeStamp {
    EventTimeStamp(NonZero(us).UnwrapOr(1))
  }

  /** `Default`. */
  function Default(): (t: EventTimeStamp)
    ensures t.micros == 1
  {
    EventTimeStamp(NonZero(1).value)
  }

  /** `From<u64>`. */
  function FromU64(us: u64): (t: EventTimeStamp)
    ensures t == New(us)
  {
    New(us)
  }

  /** The three ways of writing the constructor agree on every input. */
  lemma BranchesAgree(us: u64)
    ensures NewUnchecked(us) == New(us)
    ensures NewUnwrapOr(us) == New(us)
  {
  }

  /** Zero is the only input remapped, to the default: `new` keeps every
      other value and reaches every timestamp. */
  lemma NewRoundTrip(t: EventTimeStamp, us: u64)
    ensures New(t.micros) == t
    ensures New(us) == Default() <==> us <= 1
    ensures New(us).micros >= 1
  {
  }
}
