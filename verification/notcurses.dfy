/** The notcurses adapter (src/backend/notcurses/events.rs): notcurses'
    `Input` (what was received, plus a modifier mask) becomes an event of
    the older event model. The native types are mirrored here with the
    constants the adapter matches on; every other native key is
    `Other(code)`. */
module Notcurses {
  import opened Ints
  import W = Wrappers
  import KC = KeyCodes
  import M = Modifiers
  import Win = Window
  import CE = CoreEvents

  /** The function key numbers notcurses names, `F00` to `F60`. */
  type FNumber = x: int | 0 <= x <= 60

  /** The native keys the adapter turns into a plain key code. */
  datatype NcPlainKey =
    | Up | Right | Down | Left | Ins | Del | Backspace | PgDown | PgUp | Home | End
    | Enter
    | CapsLock | ScrollLock | NumLock | PrintScreen | Pause | Menu
    | Tab | Esc | Space

  /** The native media keys (`MEDIA_*`). */
  datatype NcMediaKey =
    | MediaPlay | MediaPause | MediaPPause | MediaRev | MediaStop | MediaFF
    | MediaRewind | MediaNext | MediaPrev | MediaRecord | MediaLVol | MediaRVol | MediaMute

  /** The native standalone modifier keys (`L*`, `R*`, `L3Shift`, `L5Shift`). */
  datatype NcModifierKey =
    | LShift | LCtrl | LAlt | LSuper | LHyper | LMeta
    | RShift | RCtrl | RAlt | RSuper | RHyper | RMeta
    | L3Shift | L5Shift

  /** The `Key` constants the adapter distinguishes, grouped by the kind of
      key code each group becomes. */
  datatype NcKey =
    | Invalid | Resize | Signal | Eof
    | Plain(plain: NcPlainKey)
    | F(n: FNumber)
    | Media(media: NcMediaKey)
    | Modifier(modifier: NcModifierKey)
    /** Any other key (keypad, mouse buttons, ...), by its native code. */
    | Other(code: nat)

  /** What `notcurses` reports as received. */
  datatype Received = NoInput | Key(key: NcKey) | Char(c: char)

  /** One input: what was received and the `KeyMod` mask, a `u32` bit set. */
  datatype Input = Input(received: Received, keymod: bv32)

  /** `From<KeyMod> for KeyModifiers`: the mask is cast to `u8`, which
      keeps its low byte, and that byte becomes the modifiers. notcurses'
      own modifier bits follow the kitty keyboard protocol, so each native
      bit becomes the flag of the same weight. */
  function ModifiersFromKeyMod(keymod: bv32): (m: M.KeyModifiers)
    ensures forall f: M.Flag :: m.Has(f) <==> keymod & (M.Bit(f) as bv32) != 0
  {
    M.FromU8((keymod & 0xFF) as bv8)
  }

  /** The key code of each plain key. */
  function PlainCode(p: NcPlainKey): (c: KC.KeyCode)
    ensures NcPlainOf(c) == W.Some(p)
  {
    match p
    case Up => KC.Up
    case Right => KC.Right
    case Down => KC.Down
    case Left => KC.Left
    case Ins => KC.Insert
    case Del => KC.Delete
    case Backspace => KC.Backspace
    case PgDown => KC.PageDown
    case PgUp => KC.PageUp
    case Home => KC.Home
    case End => KC.End
    case Enter => KC.Enter
    case CapsLock => KC.CapsLock
    case ScrollLock => KC.ScrollLock
    case NumLock => KC.NumLock
    case PrintScreen => KC.PrintScreen
    case Pause => KC.KeyCode.Pause
    case Menu => KC.Menu
    case Tab => KC.Tab
    case Esc => KC.ESC
    case Space => KC.Space
  }

  /** The plain key a key code comes from, when one does. */
  function NcPlainOf(c: KC.KeyCode): W.Option<NcPlainKey> {
    match c
    case Up => W.Some(Up)
    case Right => W.Some(Right)
    case Down => W.Some(Down)
    case Left => W.Some(Left)
    case Insert => W.Some(Ins)
    case Delete => W.Some(Del)
    case Backspace => W.Some(Backspace)
    case PageDown => W.Some(PgDown)
    case PageUp => W.Some(PgUp)
    case Home => W.Some(Home)
    case End => W.Some(End)
    case Enter => W.Some(Enter)
    case CapsLock => W.Some(CapsLock)
    case ScrollLock => W.Some(ScrollLock)
    case NumLock => W.Some(NumLock)
    case PrintScreen => W.Some(PrintScreen)
    case Pause => W.Some(NcPlainKey.Pause)
    case Menu => W.Some(Menu)
    case Tab => W.Some(Tab)
    case Escape => W.Some(Esc)
    case Space => W.Some(Space)
    case _ => W.None
  }

  /** The media key of each native media key. */
  function MediaKeyOf(m: NcMediaKey): (r: KC.MediaKey)
    ensures NcMediaOf(r) == m
  {
    match m
    case MediaPlay => KC.MediaKey.Play
    case MediaPause => KC.MediaKey.Pause
    case MediaPPause => KC.PlayPause
    case MediaRev => KC.Reverse
    case MediaStop => KC.Stop
    case MediaFF => KC.FastForward
    case MediaRewind => KC.Rewind
    case MediaNext => KC.Next
    case MediaPrev => KC.Previous
    case MediaRecord => KC.Record
    case MediaLVol => KC.LowerVolume
    case MediaRVol => KC.RaiseVolume
    case MediaMute => KC.MuteVolume
  }

  function NcMediaOf(m: KC.MediaKey): NcMediaKey {
    match m
    case Play => MediaPlay
    case Pause => MediaPause
    case PlayPause => MediaPPause
    case Reverse => MediaRev
    case Stop => MediaStop
    case FastForward => MediaFF
    case Rewind => MediaRewind
    case Next => MediaNext
    case Previous => MediaPrev
    case Record => MediaRecord
    case LowerVolume => MediaLVol
    case RaiseVolume => MediaRVol
    case MuteVolume => MediaMute
  }

  /** The modifier key of each native standalone modifier key; the order
      is the kitty keyboard protocol's. */
  function ModifierKeyOf(m: NcModifierKey): (r: KC.ModifierKey)
    ensures NcModifierOf(r) == m
  {
    match m
    case LShift => KC.LeftShift
    case LCtrl => KC.LeftControl
    case LAlt => KC.LeftAlt
    case LSuper => KC.LeftSuper
    case LHyper => KC.LeftHyper
    case LMeta => KC.LeftMeta
    case RShift => KC.RightShift
    case RCtrl => KC.RightControl
    case RAlt => KC.RightAlt
    case RSuper => KC.RightSuper
    case RHyper => KC.RightHyper
    case RMeta => KC.RightMeta
    case L3Shift => KC.IsoLevel3Shift
    case L5Shift => KC.IsoLevel5Shift
  }

  function NcModifierOf(m: KC.ModifierKey): NcModifierKey {
    match m
    case LeftShift => LShift
    case LeftControl => LCtrl
    case LeftAlt => LAlt
    case LeftSuper => LSuper
    case LeftHyper => LHyper
    case LeftMeta => LMeta
    case RightShift => RShift
    case RightControl => RCtrl
    case RightAlt => RAlt
    case RightSuper => RSuper
    case RightHyper => RHyper
    case RightMeta => RMeta
    case IsoLevel3Shift => L3Shift
    case IsoLevel5Shift => L5Shift
  }

  /** The key tuple each keyboard key becomes; `None` for the keys that
      are not keyboard keys. */
  function KeyInputOf(k: NcKey): (r: W.Option<KC.KeyInput>)
    ensures r.Some? ==> NcKeyOfCode(r.value.ToKeyCode()) == W.Some(k)
    ensures r.None? <==> k.Invalid? || k.Resize? || k.Signal? || k.Eof? || k.Other?
  {
    match k
    case Plain(p) => W.Some(KC.CodeInput(PlainCode(p)))
    case F(n) => W.Some(KC.CodeInput(KC.F(n)))
    case Media(m) => W.Some(KC.MediaInput(MediaKeyOf(m)))
    case Modifier(m) => W.Some(KC.ModifierInput(ModifierKeyOf(m)))
    case _ => W.None
  }

  /** The window events of the three signal-like keys: `Resize`
      (SIGWINCH), `Signal` (SIGCONT) and `Eof`. */
  function WindowEventOf(k: NcKey): (r: W.Option<Win.WindowEvent>)
    ensures r.Some? <==> k.Resize? || k.Signal? || k.Eof?
  {
    match k
    case Resize => W.Some(Win.Resized(W.None))
    case Signal => W.Some(Win.Continue)
    case Eof => W.Some(Win.EndOfInput)
    case _ => W.None
  }

  /** The notcurses key that yields a key code, when one does. */
  function NcKeyOfCode(c: KC.KeyCode): W.Option<NcKey> {
    match c
    case Unknown => W.None
    case Char(_) => W.None
    case F(n) => if n <= 60 then W.Some(F(n)) else W.None
    case Media(m) => W.Some(Media(NcMediaOf(m)))
    case Modifier(m) => W.Some(Modifier(NcModifierOf(m)))
    case _ => if NcPlainOf(c).Some? then W.Some(Plain(NcPlainOf(c).value)) else W.None
  }

  /** `From<Input> for Event`. A character or keyboard key becomes a key
      event carrying the input's modifiers; the three signal-like keys
      become window events; `Invalid`, every unlisted key and `NoInput`
      become `Event::None`. No event is timestamped. */
  function EventFromInput(input: Input): (e: CE.Event)
    ensures e.emitted.None?
    ensures input.received.Char? ==>
              e == CE.EventFromPair(KC.CodeInput(KC.Char(input.received.c)),
                                    ModifiersFromKeyMod(input.keymod))
    ensures input.received.Key? && KeyInputOf(input.received.key).Some? ==>
              e == CE.EventFromPair(KeyInputOf(input.received.key).value,
                                    ModifiersFromKeyMod(input.keymod))
    ensures input.received.Key? && WindowEventOf(input.received.key).Some? ==>
              e == CE.EventFromWindow(WindowEventOf(input.received.key).value)
    ensures input.received.NoInput? ==> e == CE.Event.None
  {
    var mods := ModifiersFromKeyMod(input.keymod);
    match input.received
    case Char(c) => CE.EventFromPair(KC.CodeInput(KC.Char(c)), mods)
    case Key(k) =>
      if k.Invalid? then CE.Event.None
      else if WindowEventOf(k).Some? then CE.EventFromWindow(WindowEventOf(k).value)
      else if KeyInputOf(k).Some? then CE.EventFromPair(KeyInputOf(k).value, mods)
      else CE.Event.None
    case NoInput => CE.Event.None
  }

  /* ---- properties ---- */

  /** Which inputs become which kinds of event. */
  lemma EventKindClasses(input: Input)
    ensures EventFromInput(input).kind.IsNone() <==>
              || input.received.NoInput?
              || (input.received.Key? && (input.received.key.Invalid? || input.received.key.Other?))
    ensures EventFromInput(input).kind.IsWindow() <==>
              input.received.Key? && WindowEventOf(input.received.key).Some?
    ensures EventFromInput(input).kind.IsKey() <==>
              input.received.Char? || (input.received.Key? && KeyInputOf(input.received.key).Some?)
    ensures !EventFromInput(input).kind.IsMidi() && !EventFromInput(input).kind.IsGamepad()
  {
  }

  /** Distinct keyboard keys give distinct key codes. */
  lemma KeyTableInjective(a: NcKey, b: NcKey)
    requires KeyInputOf(a).Some? && KeyInputOf(b).Some?
    requires KeyInputOf(a).value.ToKeyCode() == KeyInputOf(b).value.ToKeyCode()
    ensures a == b
  {
  }

  /** The key codes reached are exactly those other than `Unknown`,
      characters and function keys above 60, each from its own key. */
  lemma {:induction false} KeyTableReach(c: KC.KeyCode)
    ensures NcKeyOfCode(c).None? <==> c.Unknown? || c.Char? || (c.F? && c.n > 60)
    ensures NcKeyOfCode(c).Some? ==>
              && KeyInputOf(NcKeyOfCode(c).value).Some?
              && KeyInputOf(NcKeyOfCode(c).value).value.ToKeyCode() == c
  {
    if c.Media? {
      MediaTableBijective(c.media);
    } else if c.Modifier? {
      ModifierTableBijective(c.modifier);
    } else {
      PlainTableReach(c);
    }
  }

  /** Every key code other than `Unknown`, characters, function keys, media
      and modifier keys comes from exactly one plain key. */
  lemma PlainTableReach(c: KC.KeyCode)
    ensures NcPlainOf(c).Some? <==> !(c.Unknown? || c.Char? || c.F? || c.Media? || c.Modifier?)
    ensures NcPlainOf(c).Some? ==> PlainCode(NcPlainOf(c).value) == c
  {
    if IsNavigationCode(c) {
      NavigationReach(c);
    } else if !(c.Unknown? || c.Char? || c.F? || c.Media? || c.Modifier?) {
      OtherPlainReach(c);
    }
  }

  /** The arrow, paging and editing codes. */
  predicate IsNavigationCode(c: KC.KeyCode) {
    || c.Up? || c.Right? || c.Down? || c.Left? || c.Insert? || c.Delete?
    || c.Backspace? || c.PageDown? || c.PageUp? || c.Home? || c.End?
  }

  /** `PlainTableReach` for the codes `IsNavigationCode` names. */
  lemma NavigationReach(c: KC.KeyCode)
    requires IsNavigationCode(c)
    ensures NcPlainOf(c).Some? && PlainCode(NcPlainOf(c).value) == c
  {
  }

  /** `PlainTableReach` for the remaining plain codes. */
  lemma OtherPlainReach(c: KC.KeyCode)
    requires !IsNavigationCode(c)
    requires !(c.Unknown? || c.Char? || c.F? || c.Media? || c.Modifier?)
    ensures NcPlainOf(c).Some? && PlainCode(NcPlainOf(c).value) == c
  {
  }

  /** The 13 native media keys map one-to-one onto `MediaKey`. */
  lemma {:induction false} MediaTableBijective(m: KC.MediaKey)
    ensures MediaKeyOf(NcMediaOf(m)) == m
  {
    match m
    case Play =>
    case Pause =>
    case PlayPause =>
    case Reverse =>
    case Stop =>
    case FastForward =>
    case Rewind =>
    case Next =>
    case Previous =>
    case Record =>
    case LowerVolume =>
    case RaiseVolume =>
    case MuteVolume =>
  }

  /** The 14 native standalone modifier keys map one-to-one onto
      `ModifierKey`. */
  lemma {:induction false} ModifierTableBijective(m: KC.ModifierKey)
    ensures ModifierKeyOf(NcModifierOf(m)) == m
  {
    match m
    case LeftShift =>
    case LeftControl =>
    case LeftAlt =>
    case LeftSuper =>
    case LeftHyper =>
    case LeftMeta =>
    case RightShift =>
    case RightControl =>
    case RightAlt =>
    case RightSuper =>
    case RightHyper =>
    case RightMeta =>
    case IsoLevel3Shift =>
    case IsoLevel5Shift =>
  }

  /** Function key `Fnn` becomes `F(nn)`, with nothing shifted. */
  lemma FunctionKeys(n: FNumber, keymod: bv32)
    ensures EventFromInput(Input(Key(F(n)), keymod)).kind
         == CE.Key(CE.KeyEvent(KC.F(n), ModifiersFromKeyMod(keymod)))
  {
  }

  /** Only the low byte of the native mask matters. */
  lemma KeyModTruncates(keymod: bv32)
    ensures ModifiersFromKeyMod(keymod) == ModifiersFromKeyMod(keymod & 0xFF)
  {
  }

  /** `a` with Shift (mask 1) and Control (mask 4) held, and the mask
      0x1_01 reading as Shift alone. */
  lemma CharScenario()
    ensures EventFromInput(Input(Char('a'), 5)).kind.key
         == CE.KeyEvent(KC.Char('a'), M.KeyModifiers.Of(M.Shift).Union(M.KeyModifiers.Of(M.Control)))
    ensures ModifiersFromKeyMod(0x101) == M.KeyModifiers.Of(M.Shift)
  {
    var mods := ModifiersFromKeyMod(5);
    assert mods == M.KeyModifiers(5);
    assert EventFromInput(Input(Char('a'), 5)).kind.key == CE.KeyEvent(KC.Char('a'), mods);
  }

  /** A resize is an unsized `Resized`; `Invalid` is no event at all. */
  lemma SignalScenarios(keymod: bv32)
    ensures EventFromInput(Input(Key(Resize), keymod)) == CE.EventFromWindow(Win.Resized(W.None))
    ensures EventFromInput(Input(Key(Invalid), keymod)) == CE.Event.None
  {
  }
}
