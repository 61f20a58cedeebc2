/** The MIDI 1.0 message vocabulary of the external `midi_types` crate
    (`MidiMessage` and its payload types), mirrored variant for variant:
    channel voice messages, system common messages and system real-time
    messages. */
module MidiTypes {

  /** A channel number, 0 to 15. */
  type Channel = x: int | 0 <= x < 16
  /** A 7-bit data byte: note, control, program, quarter-frame and 7-bit
      values. */
  type U7 = x: int | 0 <= x < 0x80
  /** A 14-bit value (pitch bend, song position). */
  type U14 = x: int | 0 <= x < 0x4000

  datatype MidiMessage =
    | NoteOff(channel: Channel, note: U7, velocity: U7)
    | NoteOn(channel: Channel, note: U7, velocity: U7)
    | KeyPressure(channel: Channel, note: U7, value: U7)
    | ControlChange(channel: Channel, control: U7, value: U7)
    | ProgramChange(channel: Channel, program: U7)
    | ChannelPressure(channel: Channel, value: U7)
    | PitchBendChange(channel: Channel, bend: U14)
    | QuarterFrame(frame: U7)
    | SongPositionPointer(position: U14)
    | SongSelect(song: U7)
    | TuneRequest
    | TimingClock
    | Start
    | Continue
    | Stop
    | ActiveSensing
    | Reset
}
