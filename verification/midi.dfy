/** MIDI events (src/core/events/midi.rs): the crate's own copy of the
    MIDI message set, and its conversion from the native message type. */
module Midi {
  import MT = MidiTypes

  datatype MidiEvent =
    | NoteOff(channel: MT.Channel, note: MT.U7, velocity: MT.U7)
    | NoteOn(channel: MT.Channel, note: MT.U7, velocity: MT.U7)
    | KeyPressure(channel: MT.Channel, note: MT.U7, value: MT.U7)
    | ControlChange(channel: MT.Channel, control: MT.U7, value: MT.U7)
    | ProgramChange(channel: MT.Channel, program: MT.U7)
    | ChannelPressure(channel: MT.Channel, value: MT.U7)
    | PitchBendChange(channel: MT.Channel, bend: MT.U14)
    | QuarterFrame(frame: MT.U7)
    | SongPositionPointer(position: MT.U14)
    | SongSelect(song: MT.U7)
    | TuneRequest
    | TimingClock
    | Start
    | Continue
    | Stop
    | ActiveSensing
    | Reset

  /** `From<MidiMessage> for MidiEvent`: each variant to the variant of the
      same name, payload for payload. */
  function FromMessage(m: MT.MidiMessage): (e: MidiEvent)
    ensures ToMessage(e) == m
  {
    match m
    case NoteOff(ch, n, v) => NoteOff(ch, n, v)
    case NoteOn(ch, n, v) => NoteOn(ch, n, v)
    case KeyPressure(ch, n, v) => KeyPressure(ch, n, v)
    case ControlChange(ch, c, v) => ControlChange(ch, c, v)
    case ProgramChange(ch, p) => ProgramChange(ch, p)
    case ChannelPressure(ch, v) => ChannelPressure(ch, v)
    case PitchBendChange(ch, v) => PitchBendChange(ch, v)
    case QuarterFrame(f) => QuarterFrame(f)
    case SongPositionPointer(v) => SongPositionPointer(v)
    case SongSelect(v) => SongSelect(v)
    case TuneRequest => TuneRequest
    case TimingClock => TimingClock
    case Start => Start
    case Continue => Continue
    case Stop => Stop
    case ActiveSensing => ActiveSensing
    case Reset => Reset
  }

  /** The inverse direction: the native message an event stands for. */
  function ToMessage(e: MidiEvent): MT.MidiMessage {
    match e
    case NoteOff(ch, n, v) => MT.NoteOff(ch, n, v)
    case NoteOn(ch, n, v) => MT.NoteOn(ch, n, v)
    case KeyPressure(ch, n, v) => MT.KeyPressure(ch, n, v)
    case ControlChange(ch, c, v) => MT.ControlChange(ch, c, v)
    case ProgramChange(ch, p) => MT.ProgramChange(ch, p)
    case ChannelPressure(ch, v) => MT.ChannelPressure(ch, v)
    case PitchBendChange(ch, v) => MT.PitchBendChange(ch, v)
    case QuarterFrame(f) => MT.QuarterFrame(f)
    case SongPositionPointer(v) => MT.SongPositionPointer(v)
    case SongSelect(v) => MT.SongSelect(v)
    case TuneRequest => MT.TuneRequest
    case TimingClock => MT.TimingClock
    case Start => MT.Start
    case Continue => MT.Continue
    case Stop => MT.Stop
    case ActiveSensing => MT.ActiveSensing
    case Reset => MT.Reset
  }

  /** The conversion reaches every event, so with `FromMessage`'s own
      contract it is a bijection. */
  lemma FromMessageSurjective(e: MidiEvent)
    ensures FromMessage(ToMessage(e)) == e
  {
  }

  /** Hence it is injective. */
  lemma FromMessageInjective(m1: MT.MidiMessage, m2: MT.MidiMessage)
    requires FromMessage(m1) == FromMessage(m2)
    ensures m1 == m2
  {
    assert m1 == ToMessage(FromMessage(m1));
  }

  /** Payloads pass through unchanged, message by message. */
  lemma FromMessagePayloads(m: MT.MidiMessage)
    ensures m.NoteOn? ==> FromMessage(m) == NoteOn(m.channel, m.note, m.velocity)
    ensures m.NoteOff? ==> FromMessage(m) == NoteOff(m.channel, m.note, m.velocity)
    ensures m.ControlChange? ==> FromMessage(m) == ControlChange(m.channel, m.control, m.value)
    ensures m.PitchBendChange? ==> FromMessage(m) == PitchBendChange(m.channel, m.bend)
    ensures m.QuarterFrame? ==> FromMessage(m) == QuarterFrame(m.frame)
    ensures m.SongPositionPointer? ==> FromMessage(m) == SongPositionPointer(m.position)
    ensures m.Reset? ==> FromMessage(m) == Reset
  {
  }
}
