/** The gilrs gamepad backend (src/backend/gilrs.rs): gilrs' native event
    types, their translation into the crate's gamepad events, and the
    backend as an event source over gilrs' internal queue and counter. */
module Gilrs {
  import opened Ints
  import W = Wrappers
  import Gp = Gamepad
  import CE = CoreEvents

  /** gilrs' `Button`. */
  datatype Button =
    | South | East | North | West | C | Z
    | LeftTrigger | LeftTrigger2 | RightTrigger | RightTrigger2
    | Select | Start | Mode | LeftThumb | RightThumb
    | DPadUp | DPadDown | DPadLeft | DPadRight
    | Unknown

  /** gilrs' `Axis`. */
  datatype Axis =
    | LeftStickX | LeftStickY | LeftZ
    | RightStickX | RightStickY | RightZ
    | DPadX | DPadY
    | Unknown

  /** gilrs' platform-specific element `Code`, opaque here. */
  datatype Code = Code(raw: nat)

  /** gilrs' `EventType`. */
  datatype EventType =
    | ButtonPressed(button: Button, code: Code)
    | ButtonRepeated(button: Button, code: Code)
    | ButtonReleased(button: Button, code: Code)
    | ButtonChanged(button: Button, value: Gp.AnalogValue, code: Code)
    | AxisChanged(axis: Axis, value: Gp.AnalogValue, code: Code)
    | Connected
    | Disconnected
    | Dropped

  /** gilrs' `Event`: the gamepad id, what happened, and when (a system
      time, opaque here). */
  datatype GilrsEvent = GilrsEvent(id: nat, event: EventType, time: nat)

  /** `From<Button> for GamepadButton`. */
  function ButtonFromGilrs(b: Button): (g: Gp.GamepadButton)
    ensures GilrsButtonOf(g) == b
  {
    match b
    case South => Gp.South
    case East => Gp.East
    case North => Gp.North
    case West => Gp.West
    case C => Gp.C
    case Z => Gp.Z
    case LeftTrigger => Gp.LeftTrigger
    case LeftTrigger2 => Gp.LeftTrigger2
    case RightTrigger => Gp.RightTrigger
    case RightTrigger2 => Gp.RightTrigger2
    case Select => Gp.Select
    case Start => Gp.Start
    case Mode => Gp.Mode
    case LeftThumb => Gp.LeftThumb
    case RightThumb => Gp.RightThumb
    case DPadUp => Gp.DPadUp
    case DPadDown => Gp.DPadDown
    case DPadLeft => Gp.DPadLeft
    case DPadRight => Gp.DPadRight
    case Unknown => Gp.GamepadButton.Unknown
  }

  /** The inverse table. */
  function GilrsButtonOf(g: Gp.GamepadButton): Button {
    match g
    case South => South
    case East => East
    case North => North
    case West => West
    case C => C
    case Z => Z
    case LeftTrigger => LeftTrigger
    case LeftTrigger2 => LeftTrigger2
    case RightTrigger => RightTrigger
    case RightTrigger2 => RightTrigger2
    case Select => Select
    case Start => Start
    case Mode => Mode
    case LeftThumb => LeftThumb
    case RightThumb => RightThumb
    case DPadUp => DPadUp
    case DPadDown => DPadDown
    case DPadLeft => DPadLeft
    case DPadRight => DPadRight
    case Unknown => Button.Unknown
  }

  /** `From<Axis> for GamepadAxis`. */
  function AxisFromGilrs(a: Axis): (g: Gp.GamepadAxis)
    ensures GilrsAxisOf(g) == a
  {
    match a
    case LeftStickX => Gp.LeftStickX
    case LeftStickY => Gp.LeftStickY
    case LeftZ => Gp.LeftZ
    case RightStickX => Gp.RightStickX
    case RightStickY => Gp.RightStickY
    case RightZ => Gp.RightZ
    case DPadX => Gp.DPadX
    case DPadY => Gp.DPadY
    case Unknown => Gp.GamepadAxis.Unknown
  }

  /** The inverse table. */
  function GilrsAxisOf(g: Gp.GamepadAxis): Axis {
    match g
    case LeftStickX => LeftStickX
    case LeftStickY => LeftStickY
    case LeftZ => LeftZ
    case RightStickX => RightStickX
    case RightStickY => RightStickY
    case RightZ => RightZ
    case DPadX => DPadX
    case DPadY => DPadY
    case Unknown => Axis.Unknown
  }

  /** `From<EventType> for GamepadEvent`: the native element code is
      dropped, buttons and axes go through their tables, and analog values
      pass through unchanged. */
  function GamepadEventFromGilrs(t: EventType): (g: Gp.GamepadEvent)
    ensures t.ButtonPressed? <==> g.ButtonPressed?
    ensures t.ButtonRepeated? <==> g.ButtonRepeated?
    ensures t.ButtonReleased? <==> g.ButtonReleased?
    ensures t.ButtonChanged? <==> g.ButtonChanged?
    ensures t.AxisChanged? <==> g.AxisChanged?
    ensures t.Connected? <==> g.Connected?
    ensures t.Disconnected? <==> g.Disconnected?
    ensures t.Dropped? <==> g.Dropped?
    ensures t.ButtonPressed? || t.ButtonRepeated? || t.ButtonReleased? || t.ButtonChanged? ==>
              g.button == ButtonFromGilrs(t.button)
    ensures t.AxisChanged? ==> g.axis == AxisFromGilrs(t.axis)
    ensures t.ButtonChanged? || t.AxisChanged? ==> g.value == t.value
  {
    match t
    case ButtonPressed(b, _) => Gp.ButtonPressed(ButtonFromGilrs(b))
    case ButtonRepeated(b, _) => Gp.ButtonRepeated(ButtonFromGilrs(b))
    case ButtonReleased(b, _) => Gp.ButtonReleased(ButtonFromGilrs(b))
    case ButtonChanged(b, v, _) => Gp.ButtonChanged(ButtonFromGilrs(b), v)
    case AxisChanged(a, v, _) => Gp.AxisChanged(AxisFromGilrs(a), v)
    case Connected => Gp.Connected
    case Disconnected => Gp.Disconnected
    case Dropped => Gp.Dropped
  }

  /** `From<GilrsEvent> for Event`: a gamepad event with no timestamp. */
  function EventFromGilrs(ev: GilrsEvent): (e: CE.Event)
    ensures e.kind.IsGamepad() && e.emitted.None?
    ensures e.kind.gamepad == GamepadEventFromGilrs(ev.event)
  {
    CE.EventFromGamepad(GamepadEventFromGilrs(ev.event))
  }

  /** The largest value below which `inc` is promised to add one. gilrs
      keeps a 62-bit counter; what it does at the top is gilrs' own. */
  const COUNTER_LIMIT: u64 := 0x3FFF_FFFF_FFFF_FFFF

  /** `inc`, delegated to gilrs: below `COUNTER_LIMIT` the counter advances
      by one. The value returned from the limit upwards is a placeholder. */
  function Incremented(counter: u64): (c: u64)
    ensures counter < COUNTER_LIMIT ==> c == counter + 1
  {
    if counter < COUNTER_LIMIT then counter + 1 else 0
  }

  /** The backend over a `Gilrs` instance, reduced to the two things it
      uses: the queue of pending native events and the counter. */
  class GilrsBackend {
    var queue: seq<GilrsEvent>
    var counter: u64

    /** `new` and `from_gilrs`, over a given instance state. */
    constructor (pending: seq<GilrsEvent>, count: u64)
      ensures queue == pending && counter == count
    {
      queue := pending;
      counter := count;
    }

    /** `wait_event`: not supported; nothing changes. */
    method WaitEvent() returns (r: W.Result<CE.Event>)
      ensures r == W.Err(W.NotSupported)
    {
      r := W.Err(W.NotSupported);
    }

    /** `poll_event`: always `Ok`; the next native event, converted, or an
        event of kind `None` when the queue is empty. */
    method PollEvent() returns (r: W.Result<CE.Event>)
      modifies this
      ensures r.Ok?
      ensures old(queue) == [] ==> r.value == CE.FromKind(CE.EventKind.None) && queue == []
      ensures old(queue) != [] ==> r.value == EventFromGilrs(old(queue)[0]) && queue == old(queue)[1..]
      ensures counter == old(counter)
    {
      if queue == [] {
        r := W.Ok(CE.FromKind(CE.EventKind.None));
      } else {
        var ev := queue[0];
        queue := queue[1..];
        r := W.Ok(EventFromGilrs(ev));
      }
    }

    /** `increment`. */
    method Increment()
      modifies this
      ensures counter == Incremented(old(counter)) && queue == old(queue)
    {
      counter := Incremented(counter);
    }

    /** `counter`. */
    function Counter(): (c: u64)
      reads this
      ensures c == counter
    {
      counter
    }

    /** `reset_counter`. */
    method ResetCounter()
      modifies this
      ensures counter == 0 && queue == old(queue)
    {
      counter := 0;
    }
  }

  /* ---- properties ---- */

  /** The button and axis tables are bijections (20 and 9 cases). */
  lemma TablesBijective(g: Gp.GamepadButton, a: Gp.GamepadAxis)
    ensures ButtonFromGilrs(GilrsButtonOf(g)) == g
    ensures AxisFromGilrs(GilrsAxisOf(a)) == a
  {
  }

  /** The converted event depends only on the native event's `.event`
      field, and not on the element code either. */
  lemma EventIgnoresIdTimeAndCode(a: GilrsEvent, b: GilrsEvent)
    ensures a.event == b.event ==> EventFromGilrs(a) == EventFromGilrs(b)
    ensures a.event.ButtonPressed? && b.event.ButtonPressed? && a.event.button == b.event.button
            ==> EventFromGilrs(a) == EventFromGilrs(b)
  {
  }

  /** Two native event types meet only when they differ in element code:
      the conversion keeps everything else. */
  lemma GamepadEventInjective(s: EventType, t: EventType)
    requires GamepadEventFromGilrs(s) == GamepadEventFromGilrs(t)
    ensures s.ButtonPressed? || s.ButtonRepeated? || s.ButtonReleased? || s.ButtonChanged? ==>
              t.button == s.button
    ensures s.ButtonChanged? ==> t.ButtonChanged? && t.value == s.value
    ensures s.AxisChanged? ==> t.AxisChanged? && t.axis == s.axis && t.value == s.value
    ensures (s.Connected? || s.Disconnected? || s.Dropped?) ==> s == t
  {
  }
}
