/** The key code taxonomy (`KeyCode`, `MediaKey`, `ModifierKey`) of
    src/events/keys/code.rs. src/core/events/keyboard.rs declares the same
    three enums with the same variants, so both generations of the event
    model share this module. */
module KeyCodes {
  import opened Ints
  import opened Wrappers

  /** Media keys. */
  datatype MediaKey =
    | Play | Pause | PlayPause | Reverse | Stop | FastForward | Rewind
    | Next | Previous | Record | LowerVolume | RaiseVolume | MuteVolume

  /** Modifier keys pressed by themselves. */
  datatype ModifierKey =
    | LeftShift | LeftControl | LeftAlt | LeftSuper | LeftHyper | LeftMeta
    | RightShift | RightControl | RightAlt | RightSuper | RightHyper | RightMeta
    | IsoLevel3Shift | IsoLevel5Shift

  /** Keyboard codes. `F(n)` is a function key, `Char(c)` a Unicode
      character. */
  datatype KeyCode =
    | Unknown
    | Backspace | Enter
    | Left | Right | Up | Down
    | Home | End | PageUp | PageDown
    | Delete | Insert
    | F(n: u8)
    | Char(c: char)
    | Tab | Escape | Space
    | CapsLock | ScrollLock | NumLock
    | PrintScreen | Pause | Menu
    | Media(media: MediaKey)
    | Modifier(modifier: ModifierKey)

  /** The aliases `KeyCode::Esc`, `KeyCode::Ins`, `KeyCode::Del` and
      `ModifierKey::AltGr`. */
  const ESC: KeyCode := Escape
  const INS: KeyCode := Insert
  const DEL: KeyCode := Delete
  const ALT_GR: ModifierKey := IsoLevel3Shift

  /** Every media key, each once. */
  const ALL_MEDIA_KEYS: seq<MediaKey> := [
    MediaKey.Play, MediaKey.Pause, PlayPause, Reverse, Stop, FastForward,
    Rewind, Next, Previous, Record, LowerVolume, RaiseVolume, MuteVolume]

  /** Every modifier key, each once. */
  const ALL_MODIFIER_KEYS: seq<ModifierKey> := [
    LeftShift, LeftControl, LeftAlt, LeftSuper, LeftHyper, LeftMeta,
    RightShift, RightControl, RightAlt, RightSuper, RightHyper, RightMeta,
    IsoLevel3Shift, IsoLevel5Shift]

  predicate Distinct<T(==)>(s: seq<T>) {
    forall i, j :: 0 <= i < j < |s| ==> s[i] != s[j]
  }

  /** `From<MediaKey> for KeyCode`. */
  function FromMedia(m: MediaKey): (k: KeyCode)
    ensures k.Media? && k.media == m
  {
    Media(m)
  }

  /** `From<ModifierKey> for KeyCode`. */
  function FromModifier(m: ModifierKey): (k: KeyCode)
    ensures k.Modifier? && k.modifier == m
  {
    Modifier(m)
  }

  /** The first component of the key tuples `(KeyCode, ..)`,
      `(MediaKey, ..)` and `(ModifierKey, ..)` that the `From` impls accept,
      as one sum. */
  datatype KeyInput =
    | CodeInput(code: KeyCode)
    | MediaInput(media: MediaKey)
    | ModifierInput(modifier: ModifierKey)
  {
    /** The key code the input becomes through `.into()`. */
    function ToKeyCode(): (k: KeyCode)
      ensures CodeInput? ==> k == code
      ensures MediaInput? ==> AsMedia(k) == Some(media)
      ensures ModifierInput? ==> AsModifier(k) == Some(modifier)
    {
      match this
      case CodeInput(c) => c
      case MediaInput(m) => FromMedia(m)
      case ModifierInput(m) => FromModifier(m)
    }
  }

  /** The partial inverse of `FromMedia`. */
  function AsMedia(k: KeyCode): Option<MediaKey> {
    if k.Media? then Some(k.media) else None
  }

  /** The partial inverse of `FromModifier`. */
  function AsModifier(k: KeyCode): Option<ModifierKey> {
    if k.Modifier? then Some(k.modifier) else None
  }

  /** The aliases name the keys they stand for. */
  lemma Aliases()
    ensures ESC == Escape && INS == Insert && DEL == Delete
    ensures ALT_GR == IsoLevel3Shift
  {
  }

  /** `MediaKey` has exactly 13 variants. */
  lemma MediaKeysEnumerated(m: MediaKey)
    ensures |ALL_MEDIA_KEYS| == 13 && Distinct(ALL_MEDIA_KEYS)
    ensures m in ALL_MEDIA_KEYS
  {
  }

  /** `ModifierKey` has exactly 14 variants. */
  lemma ModifierKeysEnumerated(m: ModifierKey)
    ensures |ALL_MODIFIER_KEYS| == 14 && Distinct(ALL_MODIFIER_KEYS)
    ensures m in ALL_MODIFIER_KEYS
  {
  }

  /** `From<MediaKey>` is a bijection onto the `Media(_)` codes. */
  lemma MediaBijection(m: MediaKey, k: KeyCode)
    ensures AsMedia(k) == Some(m) <==> k == FromMedia(m)
    ensures k.Media? <==> exists m': MediaKey :: FromMedia(m') == k
  {
    if k.Media? {
      assert FromMedia(k.media) == k;
    }
  }

  /** `From<ModifierKey>` is a bijection onto the `Modifier(_)` codes. */
  lemma ModifierBijection(m: ModifierKey, k: KeyCode)
    ensures AsModifier(k) == Some(m) <==> k == FromModifier(m)
    ensures k.Modifier? <==> exists m': ModifierKey :: FromModifier(m') == k
  {
    if k.Modifier? {
      assert FromModifier(k.modifier) == k;
    }
  }
}
