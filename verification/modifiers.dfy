/** The keyboard modifier bitmask (`KeyModifiers`, src/event/keys/mods.rs; a
    byte-for-byte identical copy, without the `with_*` builders, lives in
    src/core/events/keyboard.rs).

    The value is one byte whose bits follow the "Modifiers" section of the
    kitty keyboard protocol. The eight per-flag getters (`shift`, `alt`, ...),
    setters (`set_*`), togglers (`toggle_*`) and builders (`with_*`) of the
    source are the instances of `Has`, `MutableKeyModifiers.SetFlag`,
    `MutableKeyModifiers.ToggleFlag` and `With` at one `Flag`. */
module Modifiers {
  import opened Ints

  /** The eight named modifiers. `Super` is `sup` in the source. */
  datatype Flag = Shift | Alt | Control | Super | Hyper | Meta | CapsLock | NumLock

  /** Bit layout of each flag (kitty keyboard protocol). */
  function Bit(f: Flag): bv8 {
    match f
    case Shift => 1
    case Alt => 2
    case Control => 4
    case Super => 8
    case Hyper => 16
    case Meta => 32
    case CapsLock => 64
    case NumLock => 128
  }

  /** The `All` mask: every bit of the byte is a defined flag. */
  const ALL_BITS: bv8 := 0xFF

  datatype KeyModifiers = KeyModifiers(bits: bv8) {

    static const None: KeyModifiers := KeyModifiers(0)
    static const All: KeyModifiers := KeyModifiers(ALL_BITS)

    /** The single-flag constants `KeyModifiers::Shift`, `::Alt`, ... */
    static function Of(f: Flag): KeyModifiers {
      KeyModifiers(Bit(f))
    }

    /** `is_empty`. */
    predicate IsEmpty() {
      bits == 0
    }

    /** `has_any`: the two masks intersect. */
    predicate HasAny(m: KeyModifiers) {
      bits & m.bits != 0
    }

    /** `has_all`: this mask contains `m`. */
    predicate HasAll(m: KeyModifiers) {
      bits & m.bits == m.bits
    }

    /** The value `insert(m)` leaves behind. */
    function Union(m: KeyModifiers): KeyModifiers {
      KeyModifiers(bits | m.bits)
    }

    /** The value `remove(m)` leaves behind. */
    function Difference(m: KeyModifiers): KeyModifiers {
      KeyModifiers(bits & !m.bits)
    }

    /** The value `toggle(m)` leaves behind. */
    function SymmetricDifference(m: KeyModifiers): KeyModifiers {
      KeyModifiers(bits ^ m.bits)
    }

    /** `complement`: the missing modifiers, truncated to `All`. */
    function Complement(): KeyModifiers {
      KeyModifiers(!bits & ALL_BITS)
    }

    /** The per-flag getters `shift()`, `alt()`, ..., `num_lock()`. */
    predicate Has(f: Flag) {
      bits & Bit(f) != 0
    }

    /** The builders `with_shift(on)`, ...: a copy with flag `f` set to `on`. */
    function With(f: Flag, on: bool): KeyModifiers {
      if on then Union(Of(f)) else Difference(Of(f))
    }
  }

  /** `From<u8>`: `from_bits_truncate`, keeping only the defined bits. A
      Rust `u8` is a byte, `bv8`. */
  function FromU8(b: bv8): KeyModifiers {
    KeyModifiers(b & ALL_BITS)
  }

  /** The raw byte of a mask (`bits()`). */
  function ToU8(m: KeyModifiers): bv8 {
    m.bits
  }

  /** Each flag owns exactly one bit. */
  lemma BitIsSingle(f: Flag)
    ensures Bit(f) != 0 && Bit(f) & (Bit(f) - 1) == 0
  {
  }

  /** Distinct flags own distinct bits. */
  lemma {:induction false} BitsDisjoint(f: Flag, g: Flag)
    requires f != g
    ensures Bit(f) & Bit(g) == 0
  {
    match f
    case Shift =>
    case Alt =>
    case Control =>
    case Super =>
    case Hyper =>
    case Meta =>
    case CapsLock =>
    case NumLock =>
  }

  /** The eight flags cover the whole byte: a mask is determined by its flags. */
  lemma FlagsDetermine(a: KeyModifiers, b: KeyModifiers)
    requires forall f: Flag :: a.Has(f) == b.Has(f)
    ensures a == b
  {
    assert a.Has(Shift) == b.Has(Shift);
    assert a.Has(Alt) == b.Has(Alt);
    assert a.Has(Control) == b.Has(Control);
    assert a.Has(Super) == b.Has(Super);
    assert a.Has(Hyper) == b.Has(Hyper);
    assert a.Has(Meta) == b.Has(Meta);
    assert a.Has(CapsLock) == b.Has(CapsLock);
    assert a.Has(NumLock) == b.Has(NumLock);
  }

  /** u8 -> KeyModifiers -> u8 is the identity, and so is the other way round. */
  lemma ByteRoundTrip(b: bv8, m: KeyModifiers)
    ensures ToU8(FromU8(b)) == b
    ensures FromU8(ToU8(m)) == m
  {
  }

  /** `is_empty` holds exactly when no flag is set. */
  lemma IsEmptyIffNoFlag(m: KeyModifiers)
    ensures m.IsEmpty() <==> forall f: Flag :: !m.Has(f)
  {
    if forall f: Flag :: !m.Has(f) {
      FlagsDetermine(m, KeyModifiers.None);
    }
  }

  /** `has_any(m)` holds exactly when some flag is in both masks. */
  lemma HasAnyIffSharedFlag(a: KeyModifiers, m: KeyModifiers)
    ensures a.HasAny(m) <==> exists f: Flag :: a.Has(f) && m.Has(f)
  {
    var c := KeyModifiers(a.bits & m.bits);
    if a.HasAny(m) {
      IsEmptyIffNoFlag(c);
      var f: Flag :| c.Has(f);
      IntersectionHas(a, m, f);
    }
    if exists f: Flag :: a.Has(f) && m.Has(f) {
      var f: Flag :| a.Has(f) && m.Has(f);
      IntersectionHas(a, m, f);
    }
  }

  /** `has_all(m)` holds exactly when every flag of `m` is in `a`. */
  lemma HasAllIffSubset(a: KeyModifiers, m: KeyModifiers)
    ensures a.HasAll(m) <==> forall f: Flag :: m.Has(f) ==> a.Has(f)
  {
    if forall f: Flag :: m.Has(f) ==> a.Has(f) {
      SubsetHasAll(a, m);
    }
    if a.HasAll(m) {
      forall f: Flag | m.Has(f) ensures a.Has(f) {
        IntersectionHas(a, m, f);
      }
    }
  }

  lemma SubsetHasAll(a: KeyModifiers, m: KeyModifiers)
    requires forall f: Flag :: m.Has(f) ==> a.Has(f)
    ensures a.HasAll(m)
  {
    var c := KeyModifiers(a.bits & m.bits);
    forall f: Flag ensures c.Has(f) == m.Has(f) {
      IntersectionHas(a, m, f);
    }
    FlagsDetermine(c, m);
  }

  /** A flag is in the bitwise intersection exactly when it is in both. */
  lemma IntersectionHas(a: KeyModifiers, m: KeyModifiers, f: Flag)
    ensures KeyModifiers(a.bits & m.bits).Has(f) <==> a.Has(f) && m.Has(f)
  {
    BitIsSingle(f);
  }

  /** insert is union, remove is difference, toggle is symmetric
      difference, complement is negation, flag by flag. */
  lemma SetAlgebra(a: KeyModifiers, m: KeyModifiers, f: Flag)
    ensures a.Union(m).Has(f) <==> a.Has(f) || m.Has(f)
    ensures a.Difference(m).Has(f) <==> a.Has(f) && !m.Has(f)
    ensures a.SymmetricDifference(m).Has(f) <==> a.Has(f) != m.Has(f)
    ensures a.Complement().Has(f) <==> !a.Has(f)
  {
    BitIsSingle(f);
  }

  /** Toggling the same mask twice restores the original. */
  lemma ToggleTwice(a: KeyModifiers, m: KeyModifiers)
    ensures a.SymmetricDifference(m).SymmetricDifference(m) == a
  {
  }

  /** `complement` is an involution, is disjoint from the original, and
      together with it makes up `All`. */
  lemma ComplementLaws(a: KeyModifiers)
    ensures a.Complement().Complement() == a
    ensures !a.HasAny(a.Complement())
    ensures a.Union(a.Complement()) == KeyModifiers.All
  {
  }

  /** `with_*(on)` makes its own flag equal to `on` and keeps the other
      seven. */
  lemma {:induction false} WithFlag(a: KeyModifiers, f: Flag, on: bool)
    ensures a.With(f, on).Has(f) == on
    ensures forall g: Flag :: g != f ==> a.With(f, on).Has(g) == a.Has(g)
  {
    BitIsSingle(f);
    forall g: Flag | g != f ensures a.With(f, on).Has(g) == a.Has(g) {
      BitsDisjoint(f, g);
      BitIsSingle(g);
    }
  }

  /** `set_*` (insert of one flag) turns its flag on and keeps the other
      seven. */
  lemma {:induction false} InsertFlag(a: KeyModifiers, f: Flag)
    ensures a.Union(KeyModifiers.Of(f)).Has(f)
    ensures forall g: Flag :: g != f ==> a.Union(KeyModifiers.Of(f)).Has(g) == a.Has(g)
  {
    BitIsSingle(f);
    forall g: Flag | g != f ensures a.Union(KeyModifiers.Of(f)).Has(g) == a.Has(g) {
      BitsDisjoint(f, g);
    }
  }

  /** `toggle_*` (toggle of one flag) flips its flag and keeps the other
      seven. */
  lemma {:induction false} ToggleFlagFlips(a: KeyModifiers, f: Flag)
    ensures a.SymmetricDifference(KeyModifiers.Of(f)).Has(f) == !a.Has(f)
    ensures forall g: Flag :: g != f ==>
      a.SymmetricDifference(KeyModifiers.Of(f)).Has(g) == a.Has(g)
  {
    BitIsSingle(f);
    forall g: Flag | g != f
      ensures a.SymmetricDifference(KeyModifiers.Of(f)).Has(g) == a.Has(g)
    {
      BitsDisjoint(f, g);
      BitIsSingle(g);
    }
  }

  /** A `KeyModifiers` place updated through `&mut self`: `insert`,
      `remove`, `toggle`, `set_*` and `toggle_*`. */
  class MutableKeyModifiers {
    var value: KeyModifiers

    constructor (initial: KeyModifiers)
      ensures value == initial
    {
      value := initial;
    }

    /** `insert`. */
    method Insert(m: KeyModifiers)
      modifies this
      ensures value == old(value).Union(m)
    {
      value := KeyModifiers(value.bits | m.bits);
    }

    /** `remove`. */
    method Remove(m: KeyModifiers)
      modifies this
      ensures value == old(value).Difference(m)
    {
      value := KeyModifiers(value.bits & !m.bits);
    }

    /** `toggle`. */
    method Toggle(m: KeyModifiers)
      modifies this
      ensures value == old(value).SymmetricDifference(m)
    {
      value := KeyModifiers(value.bits ^ m.bits);
    }

    /** `set_shift`, `set_alt`, ...: turn flag `f` on, keep the rest. */
    method SetFlag(f: Flag)
      modifies this
      ensures value.Has(f)
      ensures forall g: Flag :: g != f ==> value.Has(g) == old(value).Has(g)
    {
      InsertFlag(value, f);
      Insert(KeyModifiers.Of(f));
    }

    /** `toggle_shift`, `toggle_alt`, ...: flip flag `f`, keep the rest. */
    method ToggleFlag(f: Flag)
      modifies this
      ensures value.Has(f) == !old(value).Has(f)
      ensures forall g: Flag :: g != f ==> value.Has(g) == old(value).Has(g)
    {
      ToggleFlagFlips(value, f);
      Toggle(KeyModifiers.Of(f));
    }
  }
}
