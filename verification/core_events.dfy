/** The older event model (src/core/events/mod.rs, with its keyboard events
    in src/core/events/keyboard.rs and, once more, src/core/events/keys/mod.rs).
    Its key events have no press/release kind and its event kinds have no
    mouse variant. The notcurses, gilrs and midir adapters produce these
    events. */
module CoreEvents {
  import W = Wrappers
  import opened KeyCodes
  import M = Modifiers
  import T = Time
  import Win = Window
  import Mi = Midi
  import Gp = Gamepad

  /** A key event: a code and the modifiers held. */
  datatype KeyEvent = KeyEvent(code: KeyCode, mods: M.KeyModifiers) {

    /** `KeyEvent::new`. */
    static function New(code: KeyCode, mods: M.KeyModifiers): (e: KeyEvent)
      ensures e.code == code && e.mods == mods
    {
      KeyEvent(code, mods)
    }
  }

  /** The tuple impls `From<(KeyCode | MediaKey | ModifierKey,
      KeyModifiers)> for KeyEvent`. */
  function KeyEventFromPair(input: KeyInput, mods: M.KeyModifiers): (e: KeyEvent)
    ensures e.code == input.ToKeyCode() && e.mods == mods
    ensures input.MediaInput? ==> AsMedia(e.code) == W.Some(input.media)
    ensures input.ModifierInput? ==> AsModifier(e.code) == W.Some(input.modifier)
  {
    KeyEvent(input.ToKeyCode(), mods)
  }

  /** The kinds of event. */
  datatype EventKind =
    | None
    | Window(window: Win.WindowEvent)
    | Key(key: KeyEvent)
    | Midi(midi: Mi.MidiEvent)
    | Gamepad(gamepad: Gp.GamepadEvent)
  {
    /** The derived `Default`. */
    static const Default: EventKind := None

    /** `is_some`. */
    predicate IsSome() {
      !None?
    }

    /** `is_none`. */
    predicate IsNone() {
      None?
    }

    /** `is_window`. */
    predicate IsWindow() {
      Window?
    }

    /** `is_key`. */
    predicate IsKey() {
      Key?
    }

    /** `is_midi`. */
    predicate IsMidi() {
      Midi?
    }

    /** `is_gamepad`. */
    predicate IsGamepad() {
      Gamepad?
    }
  }

  /** An event: its kind and, when the backend knows it, when it was
      emitted. */
  datatype Event = Event(kind: EventKind, emitted: W.Option<T.EventTimeStamp>) {

    /** `Event::None`. */
    static const None: Event := Event(EventKind.None, W.None)

    /** `Event::new`. */
    static function New(kind: EventKind, emitted: W.Option<T.EventTimeStamp>): (e: Event)
      ensures e.kind == kind && e.emitted == emitted
    {
      Event(kind, emitted)
    }
  }

  /** `From<EventKind> for Event`: no timestamp. */
  function FromKind(kind: EventKind): (e: Event)
    ensures e.kind == kind && e.emitted.None?
  {
    Event(kind, W.None)
  }

  /** `From<KeyEvent> for EventKind`. */
  function KindFromKey(key: KeyEvent): (k: EventKind)
    ensures k.IsKey() && k.key == key
  {
    Key(key)
  }

  /** The tuple impls `From<(.., KeyModifiers)> for EventKind`. */
  function KindFromPair(input: KeyInput, mods: M.KeyModifiers): (k: EventKind)
    ensures k.IsKey() && k.key == KeyEventFromPair(input, mods)
  {
    KindFromKey(KeyEventFromPair(input, mods))
  }

  /** `From<KeyEvent> for Event`. */
  function EventFromKey(key: KeyEvent): (e: Event)
    ensures e.kind.IsKey() && e.kind.key == key && e.emitted.None?
  {
    FromKind(KindFromKey(key))
  }

  /** The tuple impls `From<(.., KeyModifiers)> for Event`. */
  function EventFromPair(input: KeyInput, mods: M.KeyModifiers): (e: Event)
    ensures e.kind.IsKey() && e.emitted.None?
    ensures e.kind.key.code == input.ToKeyCode() && e.kind.key.mods == mods
  {
    EventFromKey(KeyEventFromPair(input, mods))
  }

  /** `From<WindowEvent> for EventKind` (src/core/events/window.rs). */
  function KindFromWindow(w: Win.WindowEvent): (k: EventKind)
    ensures k.IsWindow() && k.window == w
  {
    Window(w)
  }

  /** `From<WindowEvent> for Event` (src/core/events/window.rs). */
  function EventFromWindow(w: Win.WindowEvent): (e: Event)
    ensures e.kind.IsWindow() && e.kind.window == w && e.emitted.None?
  {
    FromKind(KindFromWindow(w))
  }

  /** `From<MidiEvent> for Event` (src/core/events/midi.rs): a Midi-kind
      event with no timestamp. */
  function EventFromMidi(m: Mi.MidiEvent): (e: Event)
    ensures e.kind.IsMidi() && e.kind.midi == m && e.emitted.None?
  {
    FromKind(Midi(m))
  }

  /** `From<GamepadEvent> for Event`, which the gilrs adapter relies on. */
  function EventFromGamepad(g: Gp.GamepadEvent): (e: Event)
    ensures e.kind.IsGamepad() && e.kind.gamepad == g && e.emitted.None?
  {
    FromKind(Gamepad(g))
  }

  /** `Event::None` has no kind and no timestamp; `is_some` is the negation
      of `is_none`; exactly one kind predicate holds. */
  lemma KindPredicates(k: EventKind)
    ensures Event.None.kind.IsNone() && Event.None.emitted.None?
    ensures Event.None == FromKind(EventKind.Default)
    ensures k.IsSome() == !k.IsNone()
    ensures (if k.IsNone() then 1 else 0) + (if k.IsWindow() then 1 else 0)
      + (if k.IsKey() then 1 else 0) + (if k.IsMidi() then 1 else 0)
      + (if k.IsGamepad() then 1 else 0) == 1
  {
  }

  /** A key tuple determines the event it becomes, and the event gives the
      tuple back: the conversions lose nothing. */
  lemma PairRoundTrip(input: KeyInput, mods: M.KeyModifiers)
    ensures var e := EventFromPair(input, mods);
      KeyEventFromPair(CodeInput(e.kind.key.code), e.kind.key.mods) == KeyEventFromPair(input, mods)
  {
  }
}
