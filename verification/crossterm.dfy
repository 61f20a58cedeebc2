/** The crossterm adapter (src/backend/crossterm/events.rs): total
    translations from crossterm's native events into the newer event
    model. */
module Crossterm {
  import opened Ints
  import W = Wrappers
  import CT = CrosstermTypes
  import KC = KeyCodes
  import M = Modifiers
  import K = Keys
  import Ms = Mouse
  import P = Positions
  import Sz = Sizes
  import Win = Window
  import E = Events

  /* ---- modifiers ---- */

  /** The crossterm bit that stands for each flag; crossterm has no caps
      lock or num lock modifier, so those two have none. */
  function CtBit(f: M.Flag): bv8 {
    match f
    case Shift => 0x01
    case Control => 0x02
    case Alt => 0x04
    case Super => 0x08
    case Hyper => 0x10
    case Meta => 0x20
    case CapsLock => 0
    case NumLock => 0
  }

  /** The flag's bit when crossterm's mask intersects `native`, else 0. */
  function FlagIf(ct: CT.CtKeyModifiers, native: CT.CtKeyModifiers, f: M.Flag): bv8 {
    if ct.Intersects(native) then M.Bit(f) else 0
  }

  /** `From<CtKeyModifiers> for KeyModifiers`, as a value: exactly the
      flags whose native bit is present. */
  function ModifiersFromCt(ct: CT.CtKeyModifiers): (km: M.KeyModifiers)
    ensures forall f: M.Flag :: km.Has(f) <==> ct.bits & CtBit(f) != 0
    ensures ct.IsEmpty() ==> km == M.KeyModifiers.None
  {
    if ct.IsEmpty() then M.KeyModifiers.None
    else
      M.KeyModifiers(
        FlagIf(ct, CT.CtKeyModifiers.SHIFT, M.Shift)
        | FlagIf(ct, CT.CtKeyModifiers.CONTROL, M.Control)
        | FlagIf(ct, CT.CtKeyModifiers.ALT, M.Alt)
        | FlagIf(ct, CT.CtKeyModifiers.SUPER, M.Super)
        | FlagIf(ct, CT.CtKeyModifiers.HYPER, M.Hyper)
        | FlagIf(ct, CT.CtKeyModifiers.META, M.Meta))
  }

  /** `From<CtKeyModifiers> for KeyModifiers` as the source computes it: a
      mutable set, starting empty, receives one `set_*` call per native flag
      that is present. */
  method ConvertModifiers(ct: CT.CtKeyModifiers) returns (km: M.KeyModifiers)
    ensures km == ModifiersFromCt(ct)
  {
    var cell := new M.MutableKeyModifiers(M.KeyModifiers.None);
    if ct.IsEmpty() {
      km := cell.value;
      return;
    }
    SetIfPresent(cell, ct, CT.CtKeyModifiers.SHIFT, M.Shift);
    SetIfPresent(cell, ct, CT.CtKeyModifiers.CONTROL, M.Control);
    SetIfPresent(cell, ct, CT.CtKeyModifiers.ALT, M.Alt);
    SetIfPresent(cell, ct, CT.CtKeyModifiers.SUPER, M.Super);
    SetIfPresent(cell, ct, CT.CtKeyModifiers.HYPER, M.Hyper);
    SetIfPresent(cell, ct, CT.CtKeyModifiers.META, M.Meta);
    km := cell.value;
  }

  /** One `if ct.intersects(native) { set_flag(true) }` step. */
  method SetIfPresent(cell: M.MutableKeyModifiers, ct: CT.CtKeyModifiers,
                      native: CT.CtKeyModifiers, f: M.Flag)
    modifies cell
    ensures cell.value == M.KeyModifiers(old(cell.value).bits | FlagIf(ct, native, f))
  {
    if ct.Intersects(native) {
      ghost var before := cell.value;
      cell.SetFlag(f);
      M.InsertFlag(before, f);
      M.FlagsDetermine(cell.value, before.Union(M.KeyModifiers.Of(f)));
    }
  }

  /* ---- key tables ---- */

  /** `From<CtModifierKeyCode> for ModifierKey`. */
  function ModifierKeyFromCt(ct: CT.CtModifierKeyCode): (m: KC.ModifierKey)
    ensures CtModifierKeyOf(m) == ct
  {
    match ct
    case LeftShift => KC.LeftShift
    case LeftControl => KC.LeftControl
    case LeftAlt => KC.LeftAlt
    case LeftSuper => KC.LeftSuper
    case LeftHyper => KC.LeftHyper
    case LeftMeta => KC.LeftMeta
    case RightShift => KC.RightShift
    case RightControl => KC.RightControl
    case RightAlt => KC.RightAlt
    case RightSuper => KC.RightSuper
    case RightHyper => KC.RightHyper
    case RightMeta => KC.RightMeta
    case IsoLevel3Shift => KC.IsoLevel3Shift
    case IsoLevel5Shift => KC.IsoLevel5Shift
  }

  /** The inverse table. */
  function CtModifierKeyOf(m: KC.ModifierKey): CT.CtModifierKeyCode {
    match m
    case LeftShift => CT.LeftShift
    case LeftControl => CT.LeftControl
    case LeftAlt => CT.LeftAlt
    case LeftSuper => CT.LeftSuper
    case LeftHyper => CT.LeftHyper
    case LeftMeta => CT.LeftMeta
    case RightShift => CT.RightShift
    case RightControl => CT.RightControl
    case RightAlt => CT.RightAlt
    case RightSuper => CT.RightSuper
    case RightHyper => CT.RightHyper
    case RightMeta => CT.RightMeta
    case IsoLevel3Shift => CT.IsoLevel3Shift
    case IsoLevel5Shift => CT.IsoLevel5Shift
  }

  /** `From<CtMediaKeyCode> for MediaKey`; crossterm's `TrackNext` and
      `TrackPrevious` are `Next` and `Previous`. */
  function MediaKeyFromCt(ct: CT.CtMediaKeyCode): (m: KC.MediaKey)
    ensures CtMediaKeyOf(m) == ct
  {
    match ct
    case Play => KC.MediaKey.Play
    case Pause => KC.MediaKey.Pause
    case PlayPause => KC.PlayPause
    case Reverse => KC.Reverse
    case Stop => KC.Stop
    case FastForward => KC.FastForward
    case Rewind => KC.Rewind
    case TrackNext => KC.Next
    case TrackPrevious => KC.Previous
    case Record => KC.Record
    case LowerVolume => KC.LowerVolume
    case RaiseVolume => KC.RaiseVolume
    case MuteVolume => KC.MuteVolume
  }

  /** The inverse table. */
  function CtMediaKeyOf(m: KC.MediaKey): CT.CtMediaKeyCode {
    match m
    case Play => CT.CtMediaKeyCode.Play
    case Pause => CT.CtMediaKeyCode.Pause
    case PlayPause => CT.PlayPause
    case Reverse => CT.Reverse
    case Stop => CT.Stop
    case FastForward => CT.FastForward
    case Rewind => CT.Rewind
    case Next => CT.TrackNext
    case Previous => CT.TrackPrevious
    case Record => CT.Record
    case LowerVolume => CT.LowerVolume
    case RaiseVolume => CT.RaiseVolume
    case MuteVolume => CT.MuteVolume
  }

  /** `From<CtKeyCode> for KeyCode`. `BackTab` becomes `Tab`, and both
      `Null` and `KeypadBegin` become `Unknown`; every other code has a
      namesake. */
  function KeyCodeFromCt(ct: CT.CtKeyCode): (k: KC.KeyCode)
    ensures !ct.BackTab? && !ct.KeypadBegin? ==> CtKeyCodeOf(k) == W.Some(ct)
    ensures ct.BackTab? ==> k == KC.Tab
    ensures ct.KeypadBegin? ==> k == KC.Unknown
  {
    match ct
    case Backspace => KC.Backspace
    case Enter => KC.Enter
    case Left => KC.Left
    case Right => KC.Right
    case Up => KC.Up
    case Down => KC.Down
    case Home => KC.Home
    case End => KC.End
    case PageUp => KC.PageUp
    case PageDown => KC.PageDown
    case Tab => KC.Tab
    case BackTab => KC.Tab
    case Delete => KC.Delete
    case Insert => KC.Insert
    case F(f) => KC.F(f)
    case Char(c) => KC.Char(c)
    case Null => KC.Unknown
    case Esc => KC.Escape
    case CapsLock => KC.CapsLock
    case ScrollLock => KC.ScrollLock
    case NumLock => KC.NumLock
    case PrintScreen => KC.PrintScreen
    case Pause => KC.KeyCode.Pause
    case Menu => KC.Menu
    case KeypadBegin => KC.Unknown
    case Media(m) => KC.Media(MediaKeyFromCt(m))
    case Modifier(m) => KC.Modifier(ModifierKeyFromCt(m))
  }

  /** The canonical crossterm code for a key code; `Space` has none, since
      crossterm reports the space bar as `Char(' ')`. */
  function CtKeyCodeOf(k: KC.KeyCode): W.Option<CT.CtKeyCode> {
    match k
    case Unknown => W.Some(CT.Null)
    case Backspace => W.Some(CT.Backspace)
    case Enter => W.Some(CT.Enter)
    case Left => W.Some(CT.CtKeyCode.Left)
    case Right => W.Some(CT.CtKeyCode.Right)
    case Up => W.Some(CT.CtKeyCode.Up)
    case Down => W.Some(CT.CtKeyCode.Down)
    case Home => W.Some(CT.Home)
    case End => W.Some(CT.End)
    case PageUp => W.Some(CT.PageUp)
    case PageDown => W.Some(CT.PageDown)
    case Delete => W.Some(CT.Delete)
    case Insert => W.Some(CT.Insert)
    case F(n) => W.Some(CT.F(n))
    case Char(c) => W.Some(CT.Char(c))
    case Tab => W.Some(CT.Tab)
    case Escape => W.Some(CT.Esc)
    case Space => W.None
    case CapsLock => W.Some(CT.CapsLock)
    case ScrollLock => W.Some(CT.ScrollLock)
    case NumLock => W.Some(CT.NumLock)
    case PrintScreen => W.Some(CT.PrintScreen)
    case Pause => W.Some(CT.CtKeyCode.Pause)
    case Menu => W.Some(CT.Menu)
    case Media(m) => W.Some(CT.Media(CtMediaKeyOf(m)))
    case Modifier(m) => W.Some(CT.Modifier(CtModifierKeyOf(m)))
  }

  /** `From<CtKeyEventKind> for KeyKind`. */
  function KindFromCt(ct: CT.CtKeyEventKind): (k: K.KeyKind)
    ensures CtKindOf(k) == ct
  {
    match ct
    case Press => K.Press
    case Repeat => K.Repeat
    case Release => K.Release
  }

  /** The inverse table. */
  function CtKindOf(k: K.KeyKind): CT.CtKeyEventKind {
    match k
    case Press => CT.Press
    case Repeat => CT.Repeat
    case Release => CT.Release
  }

  /** `From<CtMouseButton> for MouseButton`. */
  function MouseButtonFromCt(ct: CT.CtMouseButton): (b: Ms.MouseButton)
    ensures CtMouseButtonOf(b) == W.Some(ct)
  {
    match ct
    case Left => Ms.Left
    case Right => Ms.Right
    case Middle => Ms.Middle
  }

  /** The inverse table; crossterm names no other button. */
  function CtMouseButtonOf(b: Ms.MouseButton): W.Option<CT.CtMouseButton> {
    match b
    case Left => W.Some(CT.CtMouseButton.Left)
    case Right => W.Some(CT.CtMouseButton.Right)
    case Middle => W.Some(CT.CtMouseButton.Middle)
    case Other(_) => W.None
  }

  /* ---- events ---- */

  /** `From<CtKeyEvent> for KeyEvent`. A native `BackTab` is folded into
      `Tab` with Shift forced on; every other code keeps the converted
      modifiers. The native key state is discarded. */
  function KeyEventFromCt(ct: CT.CtKeyEvent): (e: K.KeyEvent)
    ensures e.kind == KindFromCt(ct.kind)
    ensures ct.code.BackTab? ==>
              e.code == KC.Tab && e.mods == ModifiersFromCt(ct.modifiers).With(M.Shift, true)
    ensures !ct.code.BackTab? ==>
              e.code == KeyCodeFromCt(ct.code) && e.mods == ModifiersFromCt(ct.modifiers)
  {
    var km := ModifiersFromCt(ct.modifiers);
    var kk := KindFromCt(ct.kind);
    match ct.code
    case BackTab => K.FromTriple(KC.CodeInput(KC.Tab), km.With(M.Shift, true), kk)
    case _ => K.FromTriple(KC.CodeInput(KeyCodeFromCt(ct.code)), km, kk)
  }

  /** `From<CtMouseEvent> for MouseEvent`. */
  function MouseEventFromCt(ct: CT.CtMouseEvent): (m: Ms.MouseEvent)
    ensures m.mods == ModifiersFromCt(ct.modifiers) && m.offset.None?
    ensures m.pos.x == ct.column && m.pos.y == ct.row
    ensures (ct.kind.Down? || ct.kind.Up? || ct.kind.Drag?) <==> m.button.Some?
    ensures m.button.Some? ==> m.button.value == MouseButtonFromCt(ct.kind.button)
    ensures ct.kind.Down? ==> m.kind == Ms.Press
    ensures ct.kind.Up? ==> m.kind == Ms.Release
    ensures ct.kind.Drag? || ct.kind.Moved? ==> m.kind == Ms.Motion
    ensures ct.kind.ScrollDown? ==> m.kind == Ms.ScrollDown
    ensures ct.kind.ScrollUp? ==> m.kind == Ms.ScrollUp
  {
    var bk: (W.Option<Ms.MouseButton>, Ms.MouseKind) :=
      match ct.kind
      case Down(b) => (W.Some(MouseButtonFromCt(b)), Ms.Press)
      case Up(b) => (W.Some(MouseButtonFromCt(b)), Ms.Release)
      case Drag(b) => (W.Some(MouseButtonFromCt(b)), Ms.Motion)
      case Moved => (W.None, Ms.Motion)
      case ScrollDown => (W.None, Ms.ScrollDown)
      case ScrollUp => (W.None, Ms.ScrollUp);
    Ms.MouseEvent(bk.0, bk.1, ModifiersFromCt(ct.modifiers),
                  P.Position.New(ct.column, ct.row), W.None)
  }

  /** `From<CtEvent> for EventKind`; `alloc` is the crate feature of that
      name, without which pasted text is dropped. */
  function EventKindFromCt(ct: CT.CtEvent, alloc: bool): (k: E.EventKind)
    ensures ct.Key? ==> k == E.KindFromKey(KeyEventFromCt(ct.key))
    ensures ct.Mouse? ==> k == E.KindFromMouse(MouseEventFromCt(ct.mouse))
    ensures ct.FocusGained? ==> k == E.Window(Win.FocusGained)
    ensures ct.FocusLost? ==> k == E.Window(Win.FocusLost)
    ensures ct.Resize? ==> k == E.Window(Win.Resized(W.Some(Sz.FromU16Pair(ct.columns, ct.rows))))
    ensures ct.Paste? && alloc ==> k == E.Window(Win.Paste(ct.text))
    ensures ct.Paste? && !alloc ==> k == E.EventKind.None
  {
    match ct
    case Key(key) => E.KindFromKey(KeyEventFromCt(key))
    case FocusGained => E.Window(Win.FocusGained)
    case FocusLost => E.Window(Win.FocusLost)
    case Resize(w, h) => E.Window(Win.Resized(W.Some(Sz.FromU16Pair(w, h))))
    case Paste(s) => if alloc then E.Window(Win.Paste(s)) else E.EventKind.None
    case Mouse(m) => E.KindFromMouse(MouseEventFromCt(m))
  }

  /** `From<CtEvent> for Event`: never timestamped. */
  function EventFromCt(ct: CT.CtEvent, alloc: bool): (e: E.Event)
    ensures e.kind == EventKindFromCt(ct, alloc) && e.emitted.None?
  {
    E.FromKind(EventKindFromCt(ct, alloc))
  }

  /* ---- properties ---- */

  /** The conversion never sets caps lock or num lock, and keeps every
      other flag of crossterm's mask. */
  lemma ModifiersFromCtFlags(ct: CT.CtKeyModifiers)
    ensures !ModifiersFromCt(ct).Has(M.CapsLock) && !ModifiersFromCt(ct).Has(M.NumLock)
    ensures ModifiersFromCt(ct).Has(M.Shift) == ct.Intersects(CT.CtKeyModifiers.SHIFT)
    ensures ModifiersFromCt(ct).Has(M.Control) == ct.Intersects(CT.CtKeyModifiers.CONTROL)
    ensures ModifiersFromCt(ct).Has(M.Alt) == ct.Intersects(CT.CtKeyModifiers.ALT)
  {
    assert ModifiersFromCt(ct).Has(M.CapsLock) <==> ct.bits & CtBit(M.CapsLock) != 0;
    assert ModifiersFromCt(ct).Has(M.NumLock) <==> ct.bits & CtBit(M.NumLock) != 0;
    assert ModifiersFromCt(ct).Has(M.Shift) <==> ct.bits & CtBit(M.Shift) != 0;
    assert ModifiersFromCt(ct).Has(M.Control) <==> ct.bits & CtBit(M.Control) != 0;
    assert ModifiersFromCt(ct).Has(M.Alt) <==> ct.bits & CtBit(M.Alt) != 0;
  }

  /** The modifier and media key tables are bijections. */
  lemma KeyTablesBijective(m: KC.ModifierKey, media: KC.MediaKey)
    ensures ModifierKeyFromCt(CtModifierKeyOf(m)) == m
    ensures MediaKeyFromCt(CtMediaKeyOf(media)) == media
    ensures MediaKeyFromCt(CT.TrackNext) == KC.Next
    ensures MediaKeyFromCt(CT.TrackPrevious) == KC.Previous
  {
  }

  /** Two native codes meet only as `Tab`/`BackTab` or as
      `Null`/`KeypadBegin`. */
  lemma KeyCodeFromCtCollisions(a: CT.CtKeyCode, b: CT.CtKeyCode)
    requires KeyCodeFromCt(a) == KeyCodeFromCt(b)
    ensures || a == b
            || ((a.Tab? || a.BackTab?) && (b.Tab? || b.BackTab?))
            || ((a.Null? || a.KeypadBegin?) && (b.Null? || b.KeypadBegin?))
  {
  }

  /** Every key code but `Space` is reached, from its canonical native
      code. */
  lemma {:induction false} KeyCodeFromCtReach(k: KC.KeyCode)
    ensures CtKeyCodeOf(k).Some? ==> KeyCodeFromCt(CtKeyCodeOf(k).value) == k
  {
    if k.Media? {
      KeyTablesBijective(KC.LeftShift, k.media);
    } else if k.Modifier? {
      KeyTablesBijective(k.modifier, KC.MediaKey.Play);
    } else if IsEditingKey(k) {
      EditingKeysReached(k);
    } else if !k.F? && !k.Char? {
      OtherKeysReached(k);
    }
  }

  /** The navigation and editing keys, and `Unknown`. */
  predicate IsEditingKey(k: KC.KeyCode) {
    || k.Unknown? || k.Backspace? || k.Enter? || k.Left? || k.Right? || k.Up? || k.Down?
    || k.Home? || k.End? || k.PageUp? || k.PageDown? || k.Delete? || k.Insert?
  }

  /** `KeyCodeFromCtReach` for the keys `IsEditingKey` names. */
  lemma EditingKeysReached(k: KC.KeyCode)
    requires IsEditingKey(k)
    ensures CtKeyCodeOf(k).Some? && KeyCodeFromCt(CtKeyCodeOf(k).value) == k
  {
  }

  /** `KeyCodeFromCtReach` for the remaining keys without a payload. */
  lemma OtherKeysReached(k: KC.KeyCode)
    requires !IsEditingKey(k) && !k.F? && !k.Char? && !k.Media? && !k.Modifier?
    ensures CtKeyCodeOf(k).Some? ==> KeyCodeFromCt(CtKeyCodeOf(k).value) == k
  {
  }

  /** `Space` is the one key code with no native counterpart, and no
      native code yields it. */
  lemma SpaceUnreached(k: KC.KeyCode, ct: CT.CtKeyCode)
    ensures CtKeyCodeOf(k).Some? <==> k != KC.Space
    ensures KeyCodeFromCt(ct) != KC.Space
  {
  }

  /** The named cases of the key code table: the two codes without a
      namesake, and the renamed escape key. */
  lemma KeyCodeCases()
    ensures KeyCodeFromCt(CT.Null) == KC.Unknown && KeyCodeFromCt(CT.KeypadBegin) == KC.Unknown
    ensures KeyCodeFromCt(CT.Esc) == KC.Escape && KeyCodeFromCt(CT.BackTab) == KC.Tab
  {
  }

  /** Function keys keep their number and characters their value. */
  lemma KeyCodePayloads(n: u8, c: char)
    ensures KeyCodeFromCt(CT.F(n)) == KC.F(n) && KeyCodeFromCt(CT.Char(c)) == KC.Char(c)
  {
  }

  /** `Press`, `Repeat` and `Release` map to their namesakes, both ways. */
  lemma KindTableBijective(k: K.KeyKind)
    ensures KindFromCt(CtKindOf(k)) == k
  {
  }

  /** A native `BackTab` always yields a `Tab` with Shift on, whatever the
      incoming modifiers; the other flags are those the native mask gives.
      The native key state never matters. */
  lemma BackTabForcesShift(ct: CT.CtKeyEvent, s: CT.CtKeyEventState)
    requires ct.code.BackTab?
    ensures KeyEventFromCt(ct).code == KC.Tab
    ensures KeyEventFromCt(ct).mods.Has(M.Shift)
    ensures forall f: M.Flag :: f != M.Shift ==>
              KeyEventFromCt(ct).mods.Has(f) == ModifiersFromCt(ct.modifiers).Has(f)
    ensures KeyEventFromCt(ct.(state := s)) == KeyEventFromCt(ct)
  {
    M.WithFlag(ModifiersFromCt(ct.modifiers), M.Shift, true);
  }

  /** Shift+Tab with no native modifiers is a press of Tab with exactly
      Shift held. */
  lemma BackTabScenario(s: CT.CtKeyEventState)
    ensures KeyEventFromCt(CT.CtKeyEvent(CT.BackTab, CT.CtKeyModifiers.NONE, CT.Press, s))
         == K.KeyEvent(KC.Tab, M.KeyModifiers.Of(M.Shift), K.Press)
  {
  }

  /** Native `Resize(80, 24)` becomes an untimed window resize to 80x24. */
  lemma ResizeScenario(alloc: bool)
    ensures EventFromCt(CT.Resize(80, 24), alloc)
         == E.Event(E.Window(Win.Resized(W.Some(Sz.Size(80, 24)))), W.None)
  {
  }

  /** Pressing `q` with no modifiers gives exactly that key event. */
  lemma CharScenario(alloc: bool, s: CT.CtKeyEventState)
    ensures EventFromCt(CT.Key(CT.CtKeyEvent(CT.Char('q'), CT.CtKeyModifiers.NONE, CT.Press, s)), alloc)
         == E.Event(E.Key(K.KeyEvent(KC.Char('q'), M.KeyModifiers.None, K.Press)), W.None)
  {
  }

  /** Which native events become which kinds: only a paste without `alloc`
      is lost. */
  lemma EventKindClasses(ct: CT.CtEvent, alloc: bool)
    ensures EventKindFromCt(ct, alloc).IsNone() <==> ct.Paste? && !alloc
    ensures EventKindFromCt(ct, alloc).IsKey() <==> ct.Key?
    ensures EventKindFromCt(ct, alloc).IsMouse() <==> ct.Mouse?
    ensures EventKindFromCt(ct, alloc).IsWindow() <==>
              ct.FocusGained? || ct.FocusLost? || ct.Resize? || (ct.Paste? && alloc)
    ensures !EventKindFromCt(ct, alloc).IsMidi() && !EventKindFromCt(ct, alloc).IsGamepad()
  {
  }
}
