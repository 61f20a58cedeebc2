/** The newer event model (src/event/event.rs): an event kind that also
    covers the mouse, and the conversions into it from key tuples
    (src/event/keys/mod.rs), mouse events (src/event/mouse.rs) and gamepad
    events (src/event/gamepad.rs). The crossterm adapter produces these
    events. */
module Events {
  import W = Wrappers
  import opened KeyCodes
  import M = Modifiers
  import T = Time
  import K = Keys
  import Win = Window
  import Mi = Midi
  import Ms = Mouse
  import Gp = Gamepad

  /** The kinds of event. */
  datatype EventKind =
    | None
    | Window(window: Win.WindowEvent)
    | Key(key: K.KeyEvent)
    | Midi(midi: Mi.MidiEvent)
    | Mouse(mouse: Ms.MouseEvent)
    | Gamepad(gamepad: Gp.GamepadEvent)
  {
    /** The derived `Default`. */
    static const Default: EventKind := None

    /** `is_some`. */
    predicate IsSome() {
      !None?
    }

    /** `is_none`. */
    predicate IsNone() {
      None?
    }

    /** `is_window`. */
    predicate IsWindow() {
      Window?
    }

    /** `is_key`. */
    predicate IsKey() {
      Key?
    }

    /** `is_midi`. */
    predicate IsMidi() {
      Midi?
    }

    /** `is_mouse`. */
    predicate IsMouse() {
      Mouse?
    }

    /** `is_gamepad`. */
    predicate IsGamepad() {
      Gamepad?
    }

    /** `some_window`. */
    function SomeWindow(): (r: W.Option<Win.WindowEvent>)
      ensures r.Some? <==> IsWindow()
      ensures r.Some? ==> this == Window(r.value)
    {
      if Window? then W.Some(window) else W.None
    }

    /** `some_key`. */
    function SomeKey(): (r: W.Option<K.KeyEvent>)
      ensures r.Some? <==> IsKey()
      ensures r.Some? ==> this == Key(r.value)
    {
      if Key? then W.Some(key) else W.None
    }

    /** `some_mouse`. */
    function SomeMouse(): (r: W.Option<Ms.MouseEvent>)
      ensures r.Some? <==> IsMouse()
      ensures r.Some? ==> this == Mouse(r.value)
    {
      if Mouse? then W.Some(mouse) else W.None
    }

    /** `some_gamepad`. */
    function SomeGamepad(): (r: W.Option<Gp.GamepadEvent>)
      ensures r.Some? <==> IsGamepad()
      ensures r.Some? ==> this == Gamepad(r.value)
    {
      if Gamepad? then W.Some(gamepad) else W.None
    }

    /** `some_midi`. */
    function SomeMidi(): (r: W.Option<Mi.MidiEvent>)
      ensures r.Some? <==> IsMidi()
      ensures r.Some? ==> this == Midi(r.value)
    {
      if Midi? then W.Some(midi) else W.None
    }
  }

  /** An event: its kind and, when the backend knows it, when it was
      emitted. The predicates and extractors delegate to the kind. */
  datatype Event = Event(kind: EventKind, emitted: W.Option<T.EventTimeStamp>) {

    /** `Event::None`. */
    static const None: Event := Event(EventKind.None, W.None)

    /** `Event::new`. */
    static function New(kind: EventKind, emitted: W.Option<T.EventTimeStamp>): (e: Event)
      ensures e.Kind() == kind && e.Emitted() == emitted
    {
      Event(kind, emitted)
    }

    /** `emitted()`. */
    function Emitted(): W.Option<T.EventTimeStamp> {
      emitted
    }

    /** `kind()`. */
    function Kind(): EventKind {
      kind
    }

    predicate IsNone() { kind.IsNone() }
    predicate IsSome() { kind.IsSome() }
    predicate IsWindow() { kind.IsWindow() }
    predicate IsKey() { kind.IsKey() }
    predicate IsMouse() { kind.IsMouse() }
    predicate IsGamepad() { kind.IsGamepad() }
    predicate IsMidi() { kind.IsMidi() }

    function SomeWindow(): W.Option<Win.WindowEvent> { kind.SomeWindow() }
    function SomeKey(): W.Option<K.KeyEvent> { kind.SomeKey() }
    function SomeMouse(): W.Option<Ms.MouseEvent> { kind.SomeMouse() }
    function SomeGamepad(): W.Option<Gp.GamepadEvent> { kind.SomeGamepad() }
    function SomeMidi(): W.Option<Mi.MidiEvent> { kind.SomeMidi() }
  }

  /** `From<EventKind> for Event`: no timestamp. */
  function FromKind(kind: EventKind): (e: Event)
    ensures e.Kind() == kind && e.Emitted().None?
  {
    Event(kind, W.None)
  }

  /** `From<KeyEvent> for EventKind`. */
  function KindFromKey(key: K.KeyEvent): (k: EventKind)
    ensures k.SomeKey() == W.Some(key)
  {
    Key(key)
  }

  /** The tuple impls `From<(.., KeyModifiers, KeyKind)> for EventKind`. */
  function KindFromTriple(input: KeyInput, mods: M.KeyModifiers, kind: K.KeyKind): (k: EventKind)
    ensures k.SomeKey() == W.Some(K.FromTriple(input, mods, kind))
  {
    KindFromKey(K.FromTriple(input, mods, kind))
  }

  /** The tuple impls `From<(.., KeyModifiers)> for EventKind`: the kind is
      always a press. */
  function KindFromPair(input: KeyInput, mods: M.KeyModifiers): (k: EventKind)
    ensures k.SomeKey() == W.Some(K.FromPair(input, mods))
    ensures k.IsKey() && k.key.IsPress()
  {
    KindFromKey(K.FromTriple(input, mods, K.KeyKind.Default))
  }

  /** `From<KeyEvent> for Event`. */
  function EventFromKey(key: K.KeyEvent): (e: Event)
    ensures e.SomeKey() == W.Some(key) && e.Emitted().None?
  {
    FromKind(KindFromKey(key))
  }

  /** The tuple impls `From<(.., KeyModifiers, KeyKind)> for Event`. */
  function EventFromTriple(input: KeyInput, mods: M.KeyModifiers, kind: K.KeyKind): (e: Event)
    ensures e.SomeKey() == W.Some(K.FromTriple(input, mods, kind)) && e.Emitted().None?
  {
    EventFromKey(K.FromTriple(input, mods, kind))
  }

  /** The tuple impls `From<(.., KeyModifiers)> for Event`: always a press. */
  function EventFromPair(input: KeyInput, mods: M.KeyModifiers): (e: Event)
    ensures e.SomeKey() == W.Some(K.FromPair(input, mods)) && e.Emitted().None?
    ensures e.IsKey() && e.kind.key.IsPress()
  {
    EventFromKey(K.FromTriple(input, mods, K.KeyKind.Default))
  }

  /** `From<MouseEvent> for EventKind`. */
  function KindFromMouse(m: Ms.MouseEvent): (k: EventKind)
    ensures k.SomeMouse() == W.Some(m)
  {
    Mouse(m)
  }

  /** `From<MouseEvent> for Event`. */
  function EventFromMouse(m: Ms.MouseEvent): (e: Event)
    ensures e.SomeMouse() == W.Some(m) && e.Emitted().None?
  {
    FromKind(Mouse(m))
  }

  /** `From<GamepadEvent> for EventKind`. */
  function KindFromGamepad(g: Gp.GamepadEvent): (k: EventKind)
    ensures k.SomeGamepad() == W.Some(g)
  {
    Gamepad(g)
  }

  /** `From<GamepadEvent> for Event`. */
  function EventFromGamepad(g: Gp.GamepadEvent): (e: Event)
    ensures e.SomeGamepad() == W.Some(g) && e.Emitted().None?
  {
    FromKind(KindFromGamepad(g))
  }

  /** `Event::None` has kind `None` and no timestamp, and is the event made
      from the default kind. */
  lemma NoneEvent()
    ensures Event.None.IsNone() && Event.None.Emitted().None?
    ensures Event.None == FromKind(EventKind.Default)
  {
  }

  /** `is_some` is the negation of `is_none`, and exactly one of the six
      kind predicates holds. */
  lemma ExactlyOneKind(k: EventKind)
    ensures k.IsSome() == !k.IsNone()
    ensures (if k.IsNone() then 1 else 0) + (if k.IsWindow() then 1 else 0)
      + (if k.IsKey() then 1 else 0) + (if k.IsMidi() then 1 else 0)
      + (if k.IsMouse() then 1 else 0) + (if k.IsGamepad() then 1 else 0) == 1
  {
  }

  /** An extractor finds a payload exactly when the kind is that variant
      with that payload; exactly one of the five extractors finds anything
      unless the kind is `None`, when none does. */
  lemma ExtractorsIff(k: EventKind, w: Win.WindowEvent, key: K.KeyEvent, mi: Mi.MidiEvent,
                      m: Ms.MouseEvent, g: Gp.GamepadEvent)
    ensures k.SomeWindow() == W.Some(w) <==> k == Window(w)
    ensures k.SomeKey() == W.Some(key) <==> k == Key(key)
    ensures k.SomeMidi() == W.Some(mi) <==> k == Midi(mi)
    ensures k.SomeMouse() == W.Some(m) <==> k == Mouse(m)
    ensures k.SomeGamepad() == W.Some(g) <==> k == Gamepad(g)
    ensures (if k.SomeWindow().Some? then 1 else 0) + (if k.SomeKey().Some? then 1 else 0)
      + (if k.SomeMidi().Some? then 1 else 0) + (if k.SomeMouse().Some? then 1 else 0)
      + (if k.SomeGamepad().Some? then 1 else 0) == (if k.IsNone() then 0 else 1)
  {
  }
}
