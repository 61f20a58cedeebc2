/** Keyboard events of the newer event model (src/event/keys/mod.rs): a
    key code, the modifiers held and whether the key was pressed, released
    or repeated. */
module Keys {
  import opened Ints
  import opened Wrappers
  import opened KeyCodes
  import M = Modifiers

  /** `KeyKind`; its `Default` is `Press`. */
  datatype KeyKind = Press | Release | Repeat {
    static const Default: KeyKind := Press
  }

  datatype KeyEvent = KeyEvent(code: KeyCode, mods: M.KeyModifiers, kind: KeyKind) {

    /** `KeyEvent::new`. */
    static function New(code: KeyCode, mods: M.KeyModifiers, kind: KeyKind): (e: KeyEvent)
      ensures e.code == code && e.mods == mods && e.kind == kind
    {
      KeyEvent(code, mods, kind)
    }

    /** `is_press`. */
    predicate IsPress() {
      kind == Press
    }

    /** `is_release`. */
    predicate IsRelease() {
      kind == Release
    }

    /** `is_repeat`. */
    predicate IsRepeat() {
      kind == Repeat
    }

    /** `is_char`. */
    predicate IsChar() {
      code.Char?
    }

    /** `is_function`. */
    predicate IsFunction() {
      code.F?
    }

    /** `is_media` AS WRITTEN: it tests for a function key, not for a media
        key. */
    predicate IsMedia() {
      code.F?
    }

    /** `is_media` as its documentation intends: the code is a media key. */
    predicate IsMediaKey() {
      code.Media?
    }

    /** `is_arrow`. */
    predicate IsArrow() {
      code == Up || code == Left || code == Right || code == Down
    }

    /** `some_char`. */
    function SomeChar(): (r: Option<char>)
      ensures r.Some? <==> IsChar()
      ensures r.Some? ==> code == Char(r.value)
    {
      if code.Char? then Some(code.c) else None
    }

    /** `some_function`. */
    function SomeFunction(): (r: Option<u8>)
      ensures r.Some? <==> IsFunction()
      ensures r.Some? ==> code == F(r.value)
    {
      if code.F? then Some(code.n) else None
    }
  }

  /** The three-component tuple impls `From<(KeyCode | MediaKey |
      ModifierKey, KeyModifiers, KeyKind)> for KeyEvent`. */
  function FromTriple(input: KeyInput, mods: M.KeyModifiers, kind: KeyKind): (e: KeyEvent)
    ensures e.code == input.ToKeyCode() && e.mods == mods && e.kind == kind
  {
    KeyEvent(input.ToKeyCode(), mods, kind)
  }

  /** The two-component tuples complete the triple with the default kind. */
  function FromPair(input: KeyInput, mods: M.KeyModifiers): (e: KeyEvent)
    ensures e == FromTriple(input, mods, KeyKind.Default)
    ensures e.IsPress()
  {
    FromTriple(input, mods, KeyKind.Default)
  }

  /** Exactly one of `is_press`, `is_release` and `is_repeat` holds. */
  lemma ExactlyOneKind(e: KeyEvent)
    ensures (if e.IsPress() then 1 else 0) + (if e.IsRelease() then 1 else 0)
      + (if e.IsRepeat() then 1 else 0) == 1
  {
  }

  /** The code classes are disjoint, and `some_char`/`some_function` find
      exactly the `Char`/`F` payloads. */
  lemma CodeClasses(e: KeyEvent, c: char, n: u8)
    ensures e.SomeChar() == Some(c) <==> e.code == Char(c)
    ensures e.SomeFunction() == Some(n) <==> e.code == F(n)
    ensures e.IsArrow() ==> !e.IsChar() && !e.IsFunction() && !e.IsMediaKey()
    ensures !(e.IsChar() && e.IsFunction())
  {
  }

  /** The tuple impls keep every component: the event determines the tuple
      it came from. */
  lemma FromTripleInjective(a: KeyInput, b: KeyInput, ma: M.KeyModifiers,
                            mb: M.KeyModifiers, ka: KeyKind, kb: KeyKind)
    requires FromTriple(a, ma, ka) == FromTriple(b, mb, kb)
    requires a.CodeInput? == b.CodeInput?
    ensures a == b && ma == mb && ka == kb
  {
    if a.MediaInput? {
      assert AsMedia(a.ToKeyCode()) == Some(a.media);
    }
    if a.ModifierInput? {
      assert AsModifier(a.ToKeyCode()) == Some(a.modifier);
    }
  }

  /** As written, `is_media` coincides with `is_function` on every event, so
      a media key is never reported and a function key always is. */
  lemma IsMediaAsWritten(e: KeyEvent)
    ensures e.IsMedia() == e.IsFunction()
    ensures KeyEvent(Media(MediaKey.Play), M.KeyModifiers.None, Press).IsMediaKey()
    ensures !KeyEvent(Media(MediaKey.Play), M.KeyModifiers.None, Press).IsMedia()
    ensures KeyEvent(F(1), M.KeyModifiers.None, Press).IsMedia()
  {
  }

  /** The intended `is_media` holds exactly for the codes `From<MediaKey>`
      produces. */
  lemma IsMediaKeyIffFromMedia(e: KeyEvent)
    ensures e.IsMediaKey() <==> exists m: MediaKey :: e.code == FromMedia(m)
  {
    MediaBijection(MediaKey.Play, e.code);
  }
}
