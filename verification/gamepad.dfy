/** Gamepad events (src/event/gamepad.rs). */
module Gamepad {

  /** An `f32` analog reading, carried bit for bit and never computed
      with. */
  datatype AnalogValue = AnalogValue(bits: bv32)

  datatype GamepadButton =
    | South | East | North | West | C | Z
    | LeftTrigger | LeftTrigger2 | RightTrigger | RightTrigger2
    | Select | Start | Mode | LeftThumb | RightThumb
    | DPadUp | DPadDown | DPadLeft | DPadRight
    | Unknown

  datatype GamepadAxis =
    | LeftStickX | LeftStickY | LeftZ
    | RightStickX | RightStickY | RightZ
    | DPadX | DPadY
    | Unknown

  datatype GamepadEvent =
    | ButtonPressed(button: GamepadButton)
    | ButtonReleased(button: GamepadButton)
    | ButtonChanged(button: GamepadButton, value: AnalogValue)
    | ButtonRepeated(button: GamepadButton)
    | AxisChanged(axis: GamepadAxis, value: AnalogValue)
    | Connected
    | Disconnected
    | Dropped
}
