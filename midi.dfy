/**
 * Incoming MIDI messages and the rule that sorts them into note-on,
 * note-off or ignored (vismid/Signaler.java, method send).
 *
 * The message is reduced to what the router reads from it: the channel,
 * the command nibble and the second data byte (the velocity of a note
 * message). Decoding those from the status byte is done by the MIDI
 * library and is not part of this model.
 */
module Midi {

  /** Status value of a Note On message (command nibble, channel cleared). */
  const NoteOn := 0x90
  /** Status value of a Note Off message (command nibble, channel cleared). */
  const NoteOff := 0x80

  /** A message delivered to the router: a short (channel) message, or any other kind. */
  datatype MidiMessage =
    | ShortMessage(channel: int, command: int, velocity: int)
    | OtherMessage

  /** What a message means to the responders of its channel. */
  datatype Signal = On | Off | Ignored

  /**
   * The note-on / note-off rule of the MIDI 1.0 Detailed Specification
   * as the router applies it: a Note On with a non-zero velocity is "on";
   * a Note Off, or a Note On with velocity 0, is "off"; everything else,
   * including messages that are not short messages, is ignored.
   */
  function Classify(m: MidiMessage): (s: Signal)
    ensures s == On <==> m.ShortMessage? && m.command == NoteOn && m.velocity != 0
    ensures s == Off <==>
      m.ShortMessage? && (m.command == NoteOff || (m.command == NoteOn && m.velocity == 0))
  {
    if m.OtherMessage? then Ignored
    else if m.command == NoteOn && m.velocity != 0 then On
    else if m.command == NoteOff || (m.command == NoteOn && m.velocity == 0) then Off
    else Ignored
  }

  /** A Note On with velocity 0 and a Note Off on the same channel mean the same thing. */
  lemma SilentNoteOnIsNoteOff(channel: int, velocity: int)
    ensures Classify(ShortMessage(channel, NoteOn, 0)) == Classify(ShortMessage(channel, NoteOff, velocity)) == Off
  {
  }

  /** The classification looks only at the command and the velocity, never at the channel. */
  lemma ClassifyIgnoresChannel(c1: int, c2: int, command: int, velocity: int)
    ensures Classify(ShortMessage(c1, command, velocity)) == Classify(ShortMessage(c2, command, velocity))
  {
  }
}
