/** Mouse events (src/event/mouse.rs). */
module Mouse {
  import opened Ints
  import opened Wrappers
  import M = Modifiers
  import P = Positions

  /** `MouseKind`. */
  datatype MouseKind = Press | Release | Motion | ScrollUp | ScrollDown

  /** `MouseButton`; `Other(b)` carries every other button number,
      including 4 (scroll up) and 5 (scroll down). */
  datatype MouseButton = Left | Right | Middle | Other(number: u8)

  /** A mouse event: the button (if any), the kind, the modifiers held, the
      cell position and an optional finer offset. */
  datatype MouseEvent = MouseEvent(
    button: Option<MouseButton>,
    kind: MouseKind,
    mods: M.KeyModifiers,
    pos: P.Position,
    offset: Option<P.Position>)

  /** `From<u8> for MouseButton`: 1 is left, 2 middle, 3 right. */
  function ButtonFromByte(b: u8): (r: MouseButton)
    ensures b == 1 <==> r == Left
    ensures b == 2 <==> r == Middle
    ensures b == 3 <==> r == Right
    ensures b !in {1, 2, 3} <==> r == Other(b)
  {
    match b
    case 1 => Left
    case 3 => Right
    case 2 => Middle
    case _ => Other(b)
  }

  /** The button number a button stands for: the inverse of
      `ButtonFromByte`. */
  function ButtonNumber(m: MouseButton): u8 {
    match m
    case Left => 1
    case Right => 3
    case Middle => 2
    case Other(b) => b
  }

  /** Every byte survives the trip through a button, so distinct bytes give
      distinct buttons; a button survives the trip back unless it is an
      `Other` spelling of 1, 2 or 3. */
  lemma ButtonRoundTrip(b: u8, m: MouseButton)
    ensures ButtonNumber(ButtonFromByte(b)) == b
    ensures ButtonFromByte(ButtonNumber(m)) == m <==> !(m.Other? && m.number in {1, 2, 3})
  {
  }

  /** `MouseEvent::with_button`: an event that names its button. */
  function WithButton(button: MouseButton, kind: MouseKind, mods: M.KeyModifiers,
                      pos: P.Position, offset: Option<P.Position>): (e: MouseEvent)
    ensures e.button == Some(button)
    ensures e.kind == kind && e.mods == mods && e.pos == pos && e.offset == offset
  {
    MouseEvent(Some(button), kind, mods, pos, offset)
  }
}
