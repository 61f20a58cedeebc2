/** The native crossterm event vocabulary, mirrored with exactly the
    variants the adapter in src/backend/crossterm/events.rs matches on. */
module CrosstermTypes {
  import opened Ints

  /** crossterm's modifier bitflags. Its layout differs from the kitty one:
      Control is bit 1 and Alt bit 2. */
  datatype CtKeyModifiers = CtKeyModifiers(bits: bv8) {
    static const NONE: CtKeyModifiers := CtKeyModifiers(0)
    static const SHIFT: CtKeyModifiers := CtKeyModifiers(0x01)
    static const CONTROL: CtKeyModifiers := CtKeyModifiers(0x02)
    static const ALT: CtKeyModifiers := CtKeyModifiers(0x04)
    static const SUPER: CtKeyModifiers := CtKeyModifiers(0x08)
    static const HYPER: CtKeyModifiers := CtKeyModifiers(0x10)
    static const META: CtKeyModifiers := CtKeyModifiers(0x20)

    predicate IsEmpty() {
      bits == 0
    }

    predicate Intersects(other: CtKeyModifiers) {
      bits & other.bits != 0
    }
  }

  datatype CtModifierKeyCode =
    | LeftShift | LeftControl | LeftAlt | LeftSuper | LeftHyper | LeftMeta
    | RightShift | RightControl | RightAlt | RightSuper | RightHyper | RightMeta
    | IsoLevel3Shift | IsoLevel5Shift

  datatype CtMediaKeyCode =
    | Play | Pause | PlayPause | Reverse | Stop | FastForward | Rewind
    | TrackNext | TrackPrevious | Record | LowerVolume | RaiseVolume | MuteVolume

  datatype CtKeyCode =
    | Backspace | Enter | Left | Right | Up | Down | Home | End | PageUp | PageDown
    | Tab | BackTab | Delete | Insert
    | F(n: u8)
    | Char(c: char)
    | Null | Esc | CapsLock | ScrollLock | NumLock | PrintScreen | Pause | Menu
    | KeypadBegin
    | Media(media: CtMediaKeyCode)
    | Modifier(modifier: CtModifierKeyCode)

  datatype CtKeyEventKind = Press | Repeat | Release

  /** `KeyEventState` (keypad, caps lock, num lock): carried, never read. */
  datatype CtKeyEventState = CtKeyEventState(bits: bv8)

  datatype CtKeyEvent = CtKeyEvent(
    code: CtKeyCode,
    modifiers: CtKeyModifiers,
    kind: CtKeyEventKind,
    state: CtKeyEventState)

  datatype CtMouseButton = Left | Right | Middle

  datatype CtMouseEventKind =
    | Down(button: CtMouseButton)
    | Up(button: CtMouseButton)
    | Drag(button: CtMouseButton)
    | Moved
    | ScrollDown
    | ScrollUp

  datatype CtMouseEvent = CtMouseEvent(
    kind: CtMouseEventKind,
    column: u16,
    row: u16,
    modifiers: CtKeyModifiers)

  datatype CtEvent =
    | FocusGained
    | FocusLost
    | Key(key: CtKeyEvent)
    | Mouse(mouse: CtMouseEvent)
    | Paste(text: string)
    | Resize(columns: u16, rows: u16)
}
