# revela input events and layout clamping, in Dafny

This project models the input-event core of revela, a Rust crate that puts
terminal, gamepad and MIDI backends behind one event vocabulary. It covers:

- the 8-bit keyboard modifier set `KeyModifiers`, whose bit layout follows
  the "Modifiers" section of the kitty keyboard protocol;
- the key taxonomy (`KeyCode`, `MediaKey`, `ModifierKey`), key, mouse,
  window, gamepad and MIDI events, and the timestamp that is never zero;
- both generations of the event model: the newer one (`src/event/…`:
  three-field key events and a `Mouse` kind, module `Events`) and the older
  one (`src/core/events/…`: two-field key events, no `Mouse` kind, module
  `CoreEvents`);
- the four backend adapters. The crossterm adapter feeds the newer model.
  The notcurses, gilrs and MIDI (midir) adapters feed the older model, which
  is the one those files name;
- the two event sources with state: gilrs, over a queue and a counter, and
  midir, over a FIFO channel and a name-keyed connection map;
- the layout layer: saturating `Distance` conversions, `Position` with its
  clamped-coordinate invariant, and `Zone`.

Each native library type an adapter matches on is mirrored as a datatype
with exactly the variants the match arms name (`CrosstermTypes`, and the
native types at the top of `Notcurses`, `Gilrs` and `MidiTypes`). notcurses'
key constants are grouped into plain, media and modifier keys, the three
kinds of key code they become. The modifier byte and the native bit masks
are bit-vectors (`bv8`, `bv32`). Calls into native libraries become
parameters: midir's "connect" outcome is a function
`(Port, string) -> Result<()>`, and a `Size` setter is a function
`(Size, i32) -> Size`.

Where the source mutates in place, the model is a class:
- `Modifiers.MutableKeyModifiers`: `insert`, `remove`, `toggle`, `set_*` and
  `toggle_*`;
- `Zones.Zone`;
- `Gilrs.GilrsBackend`;
- `Midir.MidirBackend`.

Each of these methods is proved against a pure function of the old state.
Values that Rust copies (`KeyModifiers`, `Position`, the events) are
datatypes.

Two behaviours worth noting:
- notcurses `Key::Invalid` becomes `Event::None`
  (src/backend/notcurses/events.rs:27).
- `MouseButton` has only `Left`, `Right`, `Middle` and `Other(u8)`. Scrolling
  is a `MouseKind`, and buttons 4 and 5 are `Other(4)` and `Other(5)`
  (src/event/mouse.rs:88-105).

Three lines do not type-check as written. They are modelled as they
evidently mean:
- src/core/events/midi.rs:65 names `Event::Midi`. This is modelled as the
  `Midi` event kind with no timestamp.
- src/backend/notcurses/events.rs:30 uses `WindowEvent::Resized` with no
  argument. This is modelled as `Resized(None)`.
- src/backend/crossterm/events.rs:222 converts a `(u16, u16)` cell into a
  `Position`. This is modelled as `Position::new`.

The MIDI channel is declared to carry `(MidiEvent, u64)`, but the callback
sends the parsed native message (src/backend/midir.rs:43-44, 146-147). The
model converts the message with `From<MidiMessage>` on the way in.

## Model

| member | source | states |
|---|---|---|
| Modifiers.BitIsSingle | src/event/keys/mods.rs:12-22 | each flag owns exactly one bit of the byte |
| Modifiers.BitsDisjoint | src/event/keys/mods.rs:12-22 | distinct flags own distinct bits |
| Modifiers.FlagsDetermine | src/event/keys/mods.rs:12-24 | two masks with the same eight flags are equal |
| Modifiers.ByteRoundTrip | src/event/keys/mods.rs:37-48 | `From<u8>` truncates to the defined bits, and all eight are defined: u8 → KeyModifiers → u8 is the identity, and so is the reverse |
| Modifiers.IsEmptyIffNoFlag | src/event/keys/mods.rs:146-150 | `is_empty` holds iff no flag is set |
| Modifiers.HasAnyIffSharedFlag | src/event/keys/mods.rs:152-156 | `has_any(m)` holds iff some flag is in both masks |
| Modifiers.HasAllIffSubset | src/event/keys/mods.rs:158-162 | `has_all(m)` holds iff every flag of `m` is in the receiver |
| Modifiers.SubsetHasAll | src/event/keys/mods.rs:158-162 | containing every flag of `m` implies `has_all(m)` |
| Modifiers.IntersectionHas | src/event/keys/mods.rs:152-162 | a flag is in the bitwise intersection iff it is in both masks |
| Modifiers.SetAlgebra | src/event/keys/mods.rs:164-180 | flag by flag: insert is union, remove is difference, toggle is symmetric difference, complement is negation |
| Modifiers.ToggleTwice | src/event/keys/mods.rs:176-180 | toggling the same mask twice restores the original |
| Modifiers.ComplementLaws | src/event/keys/mods.rs:195-199 | complement is an involution, is disjoint from the original, and with it makes up `All` |
| Modifiers.WithFlag | src/event/keys/mods.rs:345-401 | `with_*(b)` makes its own flag equal to `b` and keeps the other seven |
| Modifiers.InsertFlag | src/event/keys/mods.rs:250-293 | inserting one flag turns it on and keeps the other seven |
| Modifiers.ToggleFlagFlips | src/event/keys/mods.rs:295-339 | toggling one flag flips it and keeps the other seven |
| Modifiers.MutableKeyModifiers.constructor | src/event/keys/mods.rs:8-24 | a mutable place holding the given mask |
| Modifiers.MutableKeyModifiers.Insert | src/event/keys/mods.rs:164-168 | `insert` leaves the old mask's union with `m` |
| Modifiers.MutableKeyModifiers.Remove | src/event/keys/mods.rs:170-174 | `remove` leaves the old mask's difference with `m` |
| Modifiers.MutableKeyModifiers.Toggle | src/event/keys/mods.rs:176-180 | `toggle` leaves the old mask's symmetric difference with `m` |
| Modifiers.MutableKeyModifiers.SetFlag | src/event/keys/mods.rs:250-293 | each `set_*` turns its flag on and leaves the other seven as they were |
| Modifiers.MutableKeyModifiers.ToggleFlag | src/event/keys/mods.rs:295-339 | each `toggle_*` flips its flag and leaves the other seven as they were |
| KeyCodes.FromMedia | src/events/keys/code.rs:121-125 | `KeyCode::from(m)` is `Media(m)` |
| KeyCodes.FromModifier | src/events/keys/code.rs:148-152 | `KeyCode::from(k)` is `Modifier(k)` |
| KeyCodes.KeyInput.ToKeyCode | src/core/events/keyboard.rs:30-57 | the first component of a key tuple becomes that code, `Media(m)` or `Modifier(k)` |
| KeyCodes.Aliases | src/events/keys/code.rs:92-99 | `Esc`, `Ins`, `Del` and `AltGr` equal `Escape`, `Insert`, `Delete` and `IsoLevel3Shift` |
| KeyCodes.MediaKeysEnumerated | src/events/keys/code.rs:106-120 | `MediaKey` has exactly 13 variants |
| KeyCodes.ModifierKeysEnumerated | src/events/keys/code.rs:132-147 | `ModifierKey` has exactly 14 variants |
| KeyCodes.MediaBijection | src/core/events/keyboard.rs:222-226 | `From<MediaKey>` is a bijection onto the `Media(_)` codes |
| KeyCodes.ModifierBijection | src/core/events/keyboard.rs:249-253 | `From<ModifierKey>` is a bijection onto the `Modifier(_)` codes |
| Time.NonZero | src/event/time.rs:18-26 | `NonZeroU64::new` is `None` exactly for zero and keeps every other value |
| Time.New | src/event/time.rs:18-26 | `new(0)` has value 1, and `new(n)` for n > 0 has value n |
| Time.Default | src/event/time.rs:29-33 | the default timestamp has value 1 |
| Time.FromU64 | src/event/time.rs:35-39 | `From<u64>` equals `new` |
| Time.BranchesAgree | src/core/events/time.rs:16-25 | the `unsafe_constructors` branch and both branches of the older file compute the same value as the safe branch |
| Time.NewRoundTrip | src/core/events/time.rs:16-32 | `new` keeps every timestamp, is the default exactly on 0 and 1, and is always at least 1 |
| Distance.Clamp | src/layout/distance.rs:19-27 | the result saturates `d` to `[MIN, MAX]` |
| Distance.ClampNonNegative | src/layout/distance.rs:31-39 | the result saturates `d` to `[0, MAX]` |
| Distance.ClampPositive | src/layout/distance.rs:42-50 | the result saturates `d` to `[1, MAX]` |
| Distance.ClampFromU32 | src/layout/distance.rs:56-62 | the result is `min(d, MAX)` |
| Distance.ClampPositiveFromU32 | src/layout/distance.rs:65-73 | the result saturates `d` to `[1, MAX]`, so 0 becomes 1 |
| Distance.ClampToU32 | src/layout/distance.rs:79-81 | the non-negative clamp, as a `u32` |
| Distance.ClampPositiveToU32 | src/layout/distance.rs:84-86 | the positive clamp, as a `u32` |
| Distance.ClampFromI16 | src/layout/distance.rs:92-94 | exact widening, inside `[MIN, MAX]` |
| Distance.ClampNonNegativeFromI16 | src/layout/distance.rs:97-103 | widening with a floor at 0 |
| Distance.ClampPositiveFromI16 | src/layout/distance.rs:106-112 | widening with a floor at 1 |
| Distance.ClampToI16 | src/layout/distance.rs:118-126 | saturates to `[i16::MIN, i16::MAX]` |
| Distance.ClampNonNegativeToI16 | src/layout/distance.rs:129-137 | saturates to `[0, i16::MAX]` |
| Distance.ClampPositiveToI16 | src/layout/distance.rs:140-148 | saturates to `[1, i16::MAX]` |
| Distance.ClampFromUsize | src/layout/distance.rs:154-160 | the result is `min(d, MAX)` |
| Distance.ClampPositiveFromUsize | src/layout/distance.rs:163-171 | the result saturates `d` to `[1, MAX]`, so 0 becomes 1 |
| Distance.ClampToUsize | src/layout/distance.rs:177-179 | the non-negative clamp, as a `usize` |
| Distance.ClampPositiveToUsize | src/layout/distance.rs:182-184 | the positive clamp, as a `usize` |
| Distance.Margin | src/layout/distance.rs:14-15 | `MAX = i32::MAX/2` and `MIN = i32::MIN/2`; the sum or difference of two in-range distances cannot overflow `i32` |
| Distance.SaturatesUnique | src/layout/distance.rs:19-27 | a saturation result is unique, so each clamp's contract determines it |
| Distance.Idempotent | src/layout/distance.rs:195-198 | clamping twice is clamping once |
| Distance.Monotone | src/layout/distance.rs:19-50 | clamping preserves order |
| Distance.Nesting | src/layout/distance.rs:31-50 | the non-negative and positive clamps are the full clamp followed by a floor |
| Distance.CastRoundTrips | src/layout/distance.rs:56-184 | out to `u32`/`usize` and back lands on the non-negative clamp; out to `i16` and back is the identity |
| Distance.ClampingBoundaries | src/layout/distance.rs:191-244 | every boundary assertion of the module's test |
| Positions.Position.New | src/layout/position.rs:19-24 | `new` clamps both coordinates, so the result keeps the invariant |
| Positions.Position.Default | src/layout/position.rs:10-14 | the derived default is the origin, which keeps the invariant |
| Positions.Position.SetX | src/layout/position.rs:39-41 | `set_x` clamps x, keeps y, and keeps the invariant |
| Positions.Position.SetY | src/layout/position.rs:44-46 | `set_y` clamps y, keeps x, and keeps the invariant |
| Positions.Position.AsTupleUsize | src/layout/position.rs:75-80 | both components are at least 1 |
| Positions.FromTuple | src/layout/position.rs:57-59 | `from_tuple` gives the pair of clamped components |
| Positions.FromTupleU32 | src/layout/position.rs:64-66 | each component `c` becomes `c` when `c <= MAX` and `MAX` otherwise |
| Positions.FromTupleI16 | src/layout/position.rs:71-73 | the components widen exactly |
| Positions.FromTupleUsize | src/layout/position.rs:81-86 | each component `c` becomes 1 when `c == 0`, `c` when `c <= MAX` and `MAX` otherwise |
| Positions.SettersIndependent | src/layout/position.rs:39-46 | `set_x` and `set_y` commute and each is idempotent |
| Positions.TupleRoundTrip | src/layout/position.rs:54-59 | `from_tuple(as_tuple(p)) == p` for every valid position |
| Positions.TupleI16RoundTrip | src/layout/position.rs:68-73 | `as_tuple_i16(from_tuple_i16(t)) == t` for every i16 pair |
| Positions.TupleU32RoundTrip | src/layout/position.rs:61-66 | `as_tuple_u32(from_tuple_u32(t)) == t` iff both components are at most MAX |
| Positions.TupleUsizeRoundTrip | src/layout/position.rs:75-86 | the usize round trip is the identity iff both components lie in `1..=MAX` |
| Positions.LessEqIsTotalOrder | src/layout/position.rs:10-14 | the derived ordering is lexicographic on (x, y) and total |
| Zones.Zone.constructor | src/layout/zone.rs:17-22 | `new` stores the position and the size |
| Zones.Zone.MutPosition | src/layout/zone.rs:33-35 | `mut_position` replaces the position and keeps the size |
| Zones.Zone.SetPosition | src/layout/zone.rs:37-42 | `set_position(None)` gives an equal copy; `Some(p)` replaces only the position |
| Zones.Zone.SetSize | src/layout/zone.rs:53-58 | `set_size(None)` gives an equal copy; `Some(s)` replaces only the size |
| Zones.Zone.MutSize | src/layout/zone.rs:49-51 | as written, `mut_size` leaves the caller's zone unchanged |
| Zones.Zone.ReplaceSize | src/layout/zone.rs:49-51 | as intended, the size is replaced and the position kept |
| Zones.Zone.SetX | src/layout/zone.rs:65-67 | `set_x` clamps through the position, keeps its invariant and keeps the size |
| Zones.Zone.SetY | src/layout/zone.rs:74-76 | `set_y` clamps through the position, keeps its invariant and keeps the size |
| Zones.Zone.SetW | src/layout/zone.rs:83-85 | `set_w` delegates to the size and keeps the position |
| Zones.Zone.SetH | src/layout/zone.rs:92-94 | `set_h` delegates to the size and keeps the position |
| Zones.MutSizeIsLost | src/layout/zone.rs:49-51 | on a concrete zone the requested size is lost as written and stored as intended |
| Keys.KeyEvent.New | src/event/keys/mod.rs:48-50 | `new` stores code, mods and kind |
| Keys.KeyEvent.SomeChar | src/event/keys/mod.rs:99-101 | `Some(c)` iff the code is `Char(c)` |
| Keys.KeyEvent.SomeFunction | src/event/keys/mod.rs:106-108 | `Some(n)` iff the code is `F(n)` |
| Keys.FromTriple | src/event/keys/mod.rs:112-142 | the three-tuple impls keep code, mods and kind |
| Keys.FromPair | src/event/keys/mod.rs:159-190 | the two-tuple conversions give kind `Press`, the default |
| Keys.ExactlyOneKind | src/event/keys/mod.rs:55-65 | exactly one of `is_press`, `is_release` and `is_repeat` holds |
| Keys.CodeClasses | src/event/keys/mod.rs:71-108 | `some_char`/`some_function` find exactly the payloads; arrows are neither chars nor function keys |
| Keys.FromTripleInjective | src/event/keys/mod.rs:112-142 | the tuple impls lose nothing: the event determines the tuple |
| Keys.IsMediaAsWritten | src/event/keys/mod.rs:81-85 | as written, `is_media` equals `is_function`: a media key is not reported and `F(1)` is |
| Keys.IsMediaKeyIffFromMedia | src/event/keys/mod.rs:81-85 | as intended, `is_media` holds exactly for the codes `From<MediaKey>` produces |
| Mouse.ButtonFromByte | src/event/mouse.rs:96-105 | 1 is Left, 2 Middle, 3 Right, and every other byte b is `Other(b)`, each iff |
| Mouse.ButtonRoundTrip | src/event/mouse.rs:96-105 | distinct bytes give distinct buttons; a button maps back to itself unless it spells 1, 2 or 3 as `Other` |
| Mouse.WithButton | src/event/mouse.rs:36-50 | `with_button` names the button and stores kind, mods, pos and offset unchanged |
| Midi.FromMessage | src/core/events/midi.rs:38-61 | every message maps to the same-named event, which maps back to the message |
| Midi.FromMessageSurjective | src/core/events/midi.rs:38-61 | every event is reached, so the 17-case conversion is a bijection |
| Midi.FromMessageInjective | src/core/events/midi.rs:38-61 | distinct messages give distinct events |
| Midi.FromMessagePayloads | src/core/events/midi.rs:38-61 | channel, note, velocity, controller and value payloads pass through unchanged |
| CoreEvents.KeyEvent.New | src/core/events/keys/mod.rs:28-30 | `new` stores code and mods |
| CoreEvents.KeyEventFromPair | src/core/events/keys/mod.rs:34-61 | the pair impls keep the mods and give the code, `Media(m)` or `Modifier(k)` |
| CoreEvents.Event.New | src/core/events/mod.rs:69-71 | `new` stores kind and timestamp |
| CoreEvents.FromKind | src/core/events/mod.rs:73-80 | `From<EventKind>` has no timestamp |
| CoreEvents.KindFromKey | src/core/events/keys/mod.rs:63-67 | `EventKind::from(e)` is `Key(e)` |
| CoreEvents.KindFromPair | src/core/events/keys/mod.rs:69-85 | a key pair becomes the `Key` kind of its key event |
| CoreEvents.EventFromKey | src/core/events/keys/mod.rs:87-91 | `Event::from(e)` has kind `Key(e)` and no timestamp |
| CoreEvents.EventFromPair | src/core/events/keys/mod.rs:93-109 | an event built from any key pair has that key and no timestamp |
| CoreEvents.KindFromWindow | src/core/events/window.rs:53-57 | a window event becomes the `Window` kind |
| CoreEvents.EventFromWindow | src/core/events/window.rs:58-62 | a window event becomes an untimed `Window` event |
| CoreEvents.EventFromMidi | src/core/events/midi.rs:63-67 | a MIDI event becomes an untimed `Midi` event |
| CoreEvents.EventFromGamepad | src/backend/gilrs.rs:105-109 | a gamepad event becomes an untimed `Gamepad` event |
| CoreEvents.KindPredicates | src/core/events/mod.rs:63-154 | `Event::None` has kind None and no timestamp; `is_some == !is_none`; exactly one kind predicate holds |
| CoreEvents.PairRoundTrip | src/core/events/keys/mod.rs:34-109 | example: the event built from a key pair gives the same key event back |
| Events.EventKind.SomeWindow | src/event/event.rs:203-208 | `Some(w)` iff the kind is `Window(w)` |
| Events.EventKind.SomeKey | src/event/event.rs:210-215 | `Some(k)` iff the kind is `Key(k)` |
| Events.EventKind.SomeMouse | src/event/event.rs:217-222 | `Some(m)` iff the kind is `Mouse(m)` |
| Events.EventKind.SomeGamepad | src/event/event.rs:224-229 | `Some(g)` iff the kind is `Gamepad(g)` |
| Events.EventKind.SomeMidi | src/event/event.rs:231-233 | `Some(m)` iff the kind is `Midi(m)` |
| Events.Event.New | src/event/event.rs:31-33 | `new` stores kind and timestamp |
| Events.FromKind | src/event/event.rs:119-126 | `From<EventKind>` has no timestamp |
| Events.KindFromKey | src/event/keys/mod.rs:146-151 | `EventKind::from(e)` is `Key(e)` |
| Events.KindFromTriple | src/event/keys/mod.rs:153-183 | a key triple becomes the `Key` kind of its key event |
| Events.KindFromPair | src/event/keys/mod.rs:159-190 | a key pair becomes a `Key` kind whose event is a press |
| Events.EventFromKey | src/event/keys/mod.rs:194-198 | `Event::from(e)` has kind `Key(e)` and no timestamp |
| Events.EventFromTriple | src/event/keys/mod.rs:200-230 | a key triple becomes an untimed key event |
| Events.EventFromPair | src/event/keys/mod.rs:206-237 | a key pair becomes an untimed key press |
| Events.KindFromMouse | src/event/mouse.rs:53-58 | `EventKind::from(m)` is `Mouse(m)` |
| Events.EventFromMouse | src/event/mouse.rs:60-65 | `Event::from(m)` has kind `Mouse(m)` and no timestamp |
| Events.KindFromGamepad | src/event/gamepad.rs:19-23 | a gamepad event becomes the `Gamepad` kind |
| Events.EventFromGamepad | src/event/gamepad.rs:24-28 | a gamepad event becomes an untimed `Gamepad` event |
| Events.NoneEvent | src/event/event.rs:24-27 | `Event::None` has kind None, no timestamp, and `is_none` holds |
| Events.ExactlyOneKind | src/event/event.rs:158-200 | `is_some == !is_none`, and exactly one of the six kind predicates holds |
| Events.ExtractorsIff | src/event/event.rs:203-233 | each of the five `some_*` is `Some(x)` iff the kind is that variant holding x; exactly one finds something unless the kind is `None`, when none does |
| Crossterm.ModifiersFromCt | src/backend/crossterm/events.rs:69-87 | exactly the flags whose native SHIFT/CONTROL/ALT/SUPER/HYPER/META bit is present; empty maps to `None` |
| Crossterm.ConvertModifiers | src/backend/crossterm/events.rs:69-87 | the successive `set_*` calls on a local mask compute exactly `ModifiersFromCt` |
| Crossterm.SetIfPresent | src/backend/crossterm/events.rs:76-81 | one conditional `set_*` step ORs in that flag's bit when the native bit is present |
| Crossterm.ModifierKeyFromCt | src/backend/crossterm/events.rs:89-109 | the modifier key table, with its inverse |
| Crossterm.MediaKeyFromCt | src/backend/crossterm/events.rs:111-130 | the media key table, with its inverse |
| Crossterm.KeyCodeFromCt | src/backend/crossterm/events.rs:132-165 | every native code but `BackTab` and `KeypadBegin` maps to its canonical namesake; those two give `Tab` and `Unknown` |
| Crossterm.KindFromCt | src/backend/crossterm/events.rs:167-176 | `Press`/`Repeat`/`Release` map to their namesakes |
| Crossterm.MouseButtonFromCt | src/backend/crossterm/events.rs:229-238 | Left, Right and Middle map to their namesakes |
| Crossterm.KeyEventFromCt | src/backend/crossterm/events.rs:51-66 | `BackTab` becomes `Tab` with Shift forced on; every other code keeps the converted modifiers and kind |
| Crossterm.MouseEventFromCt | src/backend/crossterm/events.rs:181-226 | Down/Up/Drag give `Some(b)` with Press/Release/Motion; Moved gives `None` with Motion; scrolls give `None` with ScrollUp/ScrollDown; offset is `None` |
| Crossterm.EventKindFromCt | src/backend/crossterm/events.rs:33-48 | key, focus, resize, paste and mouse each map to their kind; paste is `None` without `alloc` |
| Crossterm.EventFromCt | src/backend/crossterm/events.rs:26-30 | the event has that kind and no timestamp |
| Crossterm.ModifiersFromCtFlags | src/backend/crossterm/events.rs:69-87 | CapsLock and NumLock are never set; Shift, Control and Alt follow their native bits |
| Crossterm.KeyTablesBijective | src/backend/crossterm/events.rs:89-130 | both key tables are bijections; `TrackNext` is `Next` and `TrackPrevious` is `Previous` |
| Crossterm.KeyCodeFromCtCollisions | src/backend/crossterm/events.rs:132-165 | two native codes meet only as Tab/BackTab or Null/KeypadBegin |
| Crossterm.KeyCodeFromCtReach | src/backend/crossterm/events.rs:132-165 | every key code with a native counterpart is reached from it, media and modifier keys included |
| Crossterm.SpaceUnreached | src/backend/crossterm/events.rs:132-165 | `Space` is the only key code without a native counterpart, and no native code yields it |
| Crossterm.KeyCodeCases | src/backend/crossterm/events.rs:147-160 | Null and KeypadBegin give Unknown, Esc gives Escape, BackTab gives Tab |
| Crossterm.KeyCodePayloads | src/backend/crossterm/events.rs:150-151 | `F(f)` gives `F(f)` and `Char(c)` gives `Char(c)` |
| Crossterm.KindTableBijective | src/backend/crossterm/events.rs:167-176 | the kind table is a bijection |
| Crossterm.BackTabForcesShift | src/backend/crossterm/events.rs:51-66 | BackTab yields Tab with Shift on; the other flags are the native ones; the key state is ignored |
| Crossterm.BackTabScenario | src/backend/crossterm/events.rs:62 | example: Shift+Tab with no native modifiers is a Tab press with exactly Shift |
| Crossterm.ResizeScenario | src/backend/crossterm/events.rs:40 | example: `Resize(80, 24)` is an untimed resize to 80x24 |
| Crossterm.CharScenario | src/backend/crossterm/events.rs:26-66 | example: pressing `q` with no modifiers gives exactly that key press |
| Crossterm.EventKindClasses | src/backend/crossterm/events.rs:33-48 | only a paste without `alloc` is lost; key, mouse and window events come exactly from their native kinds |
| Notcurses.ModifiersFromKeyMod | src/backend/notcurses/events.rs:10-14 | a flag is set iff the native mask has the bit of the same kitty protocol weight |
| Notcurses.PlainCode | src/backend/notcurses/events.rs:36-46 | each plain key (arrows, paging, editing, Enter, the lock keys, Tab, Esc, Space) gives a code that leads back to it |
| Notcurses.MediaKeyOf | src/backend/notcurses/events.rs:147-159 | the media key table, with its inverse |
| Notcurses.ModifierKeyOf | src/backend/notcurses/events.rs:163-177 | the standalone modifier key table, with its inverse |
| Notcurses.KeyInputOf | src/backend/notcurses/events.rs:36-202 | every keyboard key maps to a key tuple whose code leads back to the key; only the signal-like keys, `Invalid` and unlisted keys map to nothing |
| Notcurses.WindowEventOf | src/backend/notcurses/events.rs:30-34 | only `Resize`, `Signal` and `Eof` are window events |
| Notcurses.EventFromInput | src/backend/notcurses/events.rs:16-212 | a char or keyboard key becomes an untimed key event with the converted modifiers; the signal keys become `Resized(None)`, `Continue` and `EndOfInput`; everything else is `Event::None` |
| Notcurses.EventKindClasses | src/backend/notcurses/events.rs:23-210 | the kind is None iff no input, `Invalid` or an unlisted key; window iff a signal key; key iff a char or keyboard key |
| Notcurses.KeyTableInjective | src/backend/notcurses/events.rs:36-202 | distinct keyboard keys give distinct key codes |
| Notcurses.KeyTableReach | src/backend/notcurses/events.rs:36-202 | the codes reached are all but `Unknown`, chars and function keys above 60, each from its own key |
| Notcurses.PlainTableReach | src/backend/notcurses/events.rs:36-202 | exactly the codes other than Unknown, chars, function, media and modifier keys come from a plain key, which maps back to them |
| Notcurses.MediaTableBijective | src/backend/notcurses/events.rs:147-159 | the 13 media keys map one-to-one onto `MediaKey` |
| Notcurses.ModifierTableBijective | src/backend/notcurses/events.rs:163-177 | the 14 standalone modifier keys map one-to-one onto `ModifierKey` |
| Notcurses.FunctionKeys | src/backend/notcurses/events.rs:53-113 | `Fnn` gives `F(nn)`, with no renumbering |
| Notcurses.KeyModTruncates | src/backend/notcurses/events.rs:10-14 | the `as u8` cast drops every bit above the low byte |
| Notcurses.CharScenario | src/backend/notcurses/events.rs:10-24 | example: `a` with mask 5 is `a` with Shift and Control; mask 0x101 is Shift alone |
| Notcurses.SignalScenarios | src/backend/notcurses/events.rs:27-30 | example: Resize gives `Resized(None)` and Invalid gives `Event::None`, whatever the mask |
| Gilrs.ButtonFromGilrs | src/backend/gilrs.rs:142-168 | the 20-case button table, with its inverse |
| Gilrs.AxisFromGilrs | src/backend/gilrs.rs:171-186 | the 9-case axis table, with its inverse |
| Gilrs.GamepadEventFromGilrs | src/backend/gilrs.rs:124-139 | same-named variants; button events drop the native code; analog values pass through unchanged |
| Gilrs.EventFromGilrs | src/backend/gilrs.rs:105-109 | an untimed gamepad event of the converted event type |
| Gilrs.Incremented | src/backend/gilrs.rs:83-85 | below gilrs' 62-bit limit the counter advances by one |
| Gilrs.GilrsBackend.constructor | src/backend/gilrs.rs:61-73 | a backend over the given queue and counter |
| Gilrs.GilrsBackend.WaitEvent | src/backend/gilrs.rs:44-46 | always `Err(NotSupported)` |
| Gilrs.GilrsBackend.PollEvent | src/backend/gilrs.rs:47-54 | always `Ok`: the head of the queue, converted and removed, or kind `None` when the queue is empty |
| Gilrs.GilrsBackend.Increment | src/backend/gilrs.rs:83-85 | the counter becomes `Incremented` of the old one and the queue is unchanged |
| Gilrs.GilrsBackend.ResetCounter | src/backend/gilrs.rs:100-102 | the counter becomes 0 and the queue is unchanged |
| Gilrs.TablesBijective | src/backend/gilrs.rs:142-186 | both tables are bijections |
| Gilrs.EventIgnoresIdTimeAndCode | src/backend/gilrs.rs:105-109 | the event depends only on `.event`, and not on the element code |
| Gilrs.GamepadEventInjective | src/backend/gilrs.rs:124-139 | equal results come from the same variant with the same button, axis and value |
| Midir.Poll | src/backend/midir.rs:73-81 | the oldest pending pair is removed and returned as an `Ok` MIDI event stamped with its time; an empty channel is `Ok` iff still connected, and stays empty |
| Midir.Decimal | src/backend/midir.rs:170 | `format!("{num}")` is a non-empty string of decimal digits |
| Midir.DigitChar | src/backend/midir.rs:170 | the digit character of a value below 10 |
| Midir.MidirBackend.constructor | src/backend/midir.rs:86-108 | no connections, an empty connected channel, over the given ports |
| Midir.MidirBackend.WaitEvent | src/backend/midir.rs:67-71 | always `Err(NotSupported)` |
| Midir.MidirBackend.PollEvent | src/backend/midir.rs:73-81 | the outcome and the channel left behind are those of `Poll`; nothing else changes |
| Midir.MidirBackend.Produce | src/backend/midir.rs:144-148 | the callback appends the converted message and its timestamp at the back of the channel |
| Midir.MidirBackend.InNames | src/backend/midir.rs:119-127 | the ports' names, one per port, in port order |
| Midir.ConnectionCount | src/backend/midir.rs:129-152 | after a successful connect the connection count grows by one for a new name and is unchanged for a name already present |
| Midir.MidirBackend.InConnect | src/backend/midir.rs:137-154 | on success the connection is stored under `name`, replacing any earlier one; on failure the native error is returned and nothing changes; `in_connections` grows by one exactly when the name was new |
| Midir.MidirBackend.InConnectIndex | src/backend/midir.rs:159-166 | an index past the last port is an error that connects nothing; otherwise `in_connect` on that port |
| Midir.MidirBackend.InConnectLast | src/backend/midir.rs:178-185 | no ports gives `Ok(())` and connects nothing; otherwise `in_connect` on the last port |
| Midir.MidirBackend.InConnectAll | src/backend/midir.rs:168-173 | result and connections are those of connecting every port in order under `in_port <num>`, stopping at the first failure |
| Midir.PollIsFifo | src/backend/midir.rs:73-81 | a pair sent behind others does not change the next poll, and stays queued |
| Midir.PollEvents | src/backend/midir.rs:73-81 | a polled pair is a MIDI event stamped `new(µs)`, so 0 becomes 1; empty connected is `Event::None`; empty disconnected is an error |
| Midir.ProducedMessageIsPolled | src/backend/midir.rs:144-148 | a message sent by the callback is polled as the event it names |
| Midir.DecimalInjective | src/backend/midir.rs:170 | distinct numbers give distinct decimal strings |
| Midir.InPortNamesDistinct | src/backend/midir.rs:168-173 | distinct ports get distinct names |
| Midir.ConnectFromKeeps | src/backend/midir.rs:168-173 | a connection under a name no later port uses survives the loop |
| Midir.ConnectFromOk | src/backend/midir.rs:168-173 | on success every port is connected under its own name and every native connect succeeded |
| Midir.ConnectFromErr | src/backend/midir.rs:168-173 | on failure the error is the first failing port's, and every earlier port succeeded |

## Left out

- Terminal, SDL and notcurses session control, rendering and text grids: these are I/O against native libraries.
- Native polling: crossterm's, notcurses' and SDL's `poll_event`/`wait_event` are outside the event core.
- The midir callback thread and the channel's concurrency: the channel is a FIFO `seq` plus a `connected` flag. The backend owns `input_producer`, so the channel reports `Disconnected` only once no sender is left; no modelled operation clears the flag.
- MIDI byte parsing (`try_parse_slice`): it lives in an external crate. `Produce` starts from the parsed message.
- Port enumeration and naming: ports are given to the backend, each with its name. So `port_name`'s `expect` panic is not modelled.
- The `out_*` methods of midir: they are outside the modelled core.
- Midir.MidirBackend.constructor: does not model `MidirInput::new` or `MidirOutput::new` failing, because those are native calls.
- Native midir connection objects: a connection is recorded as its port and name.
- Gilrs.GilrsBackend.constructor: does not model `GilrsBuilder::build` failing, because that is a native call.
- Gilrs.GilrsBackend.constructor: the native `Gilrs` instance is reduced to its event queue and counter.
- Gilrs.Incremented: the wrap point is gilrs' own and is not modelled. Only the increment below `0x3FFF_FFFF_FFFF_FFFF` is promised; from there upwards the returned value is a placeholder.
- Gilrs.GilrsBackend.Increment: inherits that gap, since it sets the counter to `Incremented` of the old one.
- Gamepad analog values (`f32`): they are carried bit for bit as an opaque `bv32`, with no arithmetic.
- Native gamepad ids and event times: they are carried as opaque numbers.
- Error plumbing and `Display` formatting: native errors are carried opaquely; a disconnected channel is `ChannelDisconnected`.
- `Size` internals: src/layout/size.rs is not part of this model. A size is a plain width/height pair, and its setters are passed in. `Size::from((u16, u16))` is therefore only a constructor (`Sizes.FromU16Pair`), with nothing to prove.
- `Zone::new_raw` and the `w`/`h` getters: they delegate to `Size`.
- Positions.Position.SetX: `set_x`/`set_y` update a position in place. They are modelled as the value they leave behind; the in-place update is `Zones.Zone.SetX`/`SetY` on the zone's field.
- Keyboard modifiers in the older file (src/core/events/keyboard.rs:261-592): the bitmask is identical to the newer one, so both are modelled once in `Modifiers`.
- `with_*`: this builder exists only in the newer file.
- Capability structs, no_std utilities, examples and module wiring: these are data holders, FFI or driver loops.

## Findings

| source | as written | input that shows it | evidently intended | confidence | as-written member | corrected member |
|---|---|---|---|---|---|---|
| src/event/keys/mod.rs:81-85 | `is_media` matches `KeyCode::F(_)`, the same test as `is_function` | a key event with code `Media(Play)`: `is_media` is false; with code `F(1)`: `is_media` is true | true exactly for `Media(_)` codes, as its documentation says | not executed | Keys.IsMediaAsWritten | Keys.IsMediaKeyIffFromMedia |
| src/layout/zone.rs:49-51 | `mut_size` takes `mut self` by value, so the new size is written to a copy that is dropped | a zone of size 10x20, then `mut_size(30x40)`: the caller's zone still has size 10x20 | replace the zone's size in place, like `mut_position` | not executed | Zones.MutSizeIsLost | Zones.Zone.ReplaceSize |
