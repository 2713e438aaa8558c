/**
 * The MIDI listener's message handler: Note On / Note Off channel voice
 * messages of the MIDI 1.0 Detailed Specification update the set of active
 * notes; every other message is ignored.
 */
module Midi {
  import opened State

  /** Status nibble of a Note Off message. */
  const NOTE_OFF: Byte := 0x80
  /** Status nibble of a Note On message. */
  const NOTE_ON: Byte := 0x90

  /** `status & 0xF0`: the message type, with the channel in the low nibble cleared. */
  function StatusOf(b: Byte): (s: Byte)
    ensures s % 16 == 0
    ensures s <= b < s + 16
  {
    b / 16 * 16
  }

  /** What a message does to the note set. */
  datatype Action =
    | Insert(note: Note)        // add one (note, velocity) pair
    | RemovePitch(pitch: Byte)  // drop every entry of that pitch
    | Ignore                    // leave the set alone

  /** Which action the handler takes for `message`. */
  function Decode(message: seq<Byte>): (a: Action)
    ensures |message| < 3 ==> a == Ignore
    ensures a.Insert? ==>
              && |message| >= 3
              && StatusOf(message[0]) == NOTE_ON
              && a.note == Note(message[1], message[2])
              && a.note.velocity > 0
    ensures a.RemovePitch? ==>
              && |message| >= 3
              && a.pitch == message[1]
              && (StatusOf(message[0]) == NOTE_OFF || (StatusOf(message[0]) == NOTE_ON && message[2] == 0))
    ensures |message| >= 3 && StatusOf(message[0]) != NOTE_ON && StatusOf(message[0]) != NOTE_OFF ==> a == Ignore
    ensures |message| >= 3 && StatusOf(message[0]) == NOTE_ON && message[2] > 0 ==> a == Insert(Note(message[1], message[2]))
    ensures |message| >= 3 && (StatusOf(message[0]) == NOTE_OFF || (StatusOf(message[0]) == NOTE_ON && message[2] == 0))
            ==> a == RemovePitch(message[1])
  {
    if |message| < 3 then Ignore
    else
      var status := StatusOf(message[0]);
      var note := message[1];
      var velocity := message[2];
      if status == NOTE_ON && velocity > 0 then Insert(Note(note, velocity))
      else if status == NOTE_OFF || (status == NOTE_ON && velocity == 0) then RemovePitch(note)
      else Ignore
  }

  /** The note set after `a`: `insert` or `retain(|&(n, _)| n != pitch)`. */
  function Apply(notes: set<Note>, a: Action): (r: set<Note>)
    ensures a.Insert? ==> a.note in r && r - {a.note} == notes - {a.note}
    ensures a.RemovePitch? ==> forall n :: n in r <==> n in notes && n.pitch != a.pitch
    ensures a.Ignore? ==> r == notes
  {
    match a
    case Insert(n) => notes + {n}
    case RemovePitch(p) => set n | n in notes && n.pitch != p
    case Ignore => notes
  }

  /**
   * The closure `run_midi_listener` registers: called with each raw message,
   * it edits the shared note set in place.
   */
  method OnMessage(state: AppState, message: seq<Byte>)
    requires state.Valid()
    modifies state
    ensures state.Valid()
    ensures state.activeNotes == Apply(old(state.activeNotes), Decode(message))
  {
    if |message| >= 3 {
      var status := StatusOf(message[0]);
      var note := message[1];
      var velocity := message[2];
      if status == NOTE_ON && velocity > 0 {
        state.activeNotes := state.activeNotes + {Note(note, velocity)};
      } else if status == NOTE_OFF || (status == NOTE_ON && velocity == 0) {
        state.activeNotes := set n | n in state.activeNotes && n.pitch != note;
      }
    }
  }

  // Properties of the handler.

  /** A message shorter than three bytes changes nothing. */
  lemma ShortMessageIgnored(notes: set<Note>, message: seq<Byte>)
    requires |message| < 3
    ensures Apply(notes, Decode(message)) == notes
  {
  }

  /** The channel (low nibble of the status byte) never affects the outcome. */
  lemma ChannelIgnored(message: seq<Byte>, channel: Byte)
    requires |message| >= 1 && channel < 16
    ensures Decode([StatusOf(message[0]) + channel] + message[1..]) == Decode(message)
  {
    var moved := [StatusOf(message[0]) + channel] + message[1..];
    assert StatusOf(moved[0]) == StatusOf(message[0]);
    assert |moved| == |message| && moved[1..] == message[1..];
  }

  /** Bytes after the third are never read. */
  lemma TrailingBytesIgnored(message: seq<Byte>, extra: seq<Byte>)
    requires |message| >= 3
    ensures Decode(message + extra) == Decode(message)
  {
    var longer := message + extra;
    assert longer[0] == message[0] && longer[1] == message[1] && longer[2] == message[2];
  }

  /** Note On with velocity > 0 adds exactly that pair, and nothing else. */
  lemma NoteOnAddsPair(notes: set<Note>, channel: Byte, pitch: Byte, velocity: Byte)
    requires channel < 16 && velocity > 0
    ensures Apply(notes, Decode([NOTE_ON + channel, pitch, velocity])) == notes + {Note(pitch, velocity)}
  {
    assert StatusOf(NOTE_ON + channel) == NOTE_ON;
  }

  /** Re-sending an identical Note On leaves the set as the first one did. */
  lemma NoteOnIdempotent(notes: set<Note>, message: seq<Byte>)
    requires Decode(message).Insert?
    ensures Apply(Apply(notes, Decode(message)), Decode(message)) == Apply(notes, Decode(message))
  {
  }

  /**
   * A Note On for a pitch already held at another velocity adds a second
   * entry: both velocities are then present and the set grows by one.
   */
  lemma RetriggerAddsSecondEntry(notes: set<Note>, pitch: Byte, held: Byte, velocity: Byte)
    requires Note(pitch, held) in notes
    requires velocity > 0 && velocity != held && Note(pitch, velocity) !in notes
    ensures var r := Apply(notes, Decode([NOTE_ON, pitch, velocity]));
            && Note(pitch, held) in r && Note(pitch, velocity) in r
            && |r| == |notes| + 1
  {
    assert StatusOf(NOTE_ON) == NOTE_ON;
  }

  /**
   * Note Off (any velocity) removes every entry of the pitch, whatever its
   * velocity, and leaves the entries of every other pitch as they were.
   */
  lemma NoteOffRemovesPitch(notes: set<Note>, channel: Byte, pitch: Byte, velocity: Byte)
    requires channel < 16
    ensures var r := Apply(notes, Decode([NOTE_OFF + channel, pitch, velocity]));
            && (forall n :: n in r ==> n.pitch != pitch)
            && (forall n: Note :: n.pitch != pitch ==> (n in r <==> n in notes))
  {
    assert StatusOf(NOTE_OFF + channel) == NOTE_OFF;
  }

  /** Note On with velocity 0 acts exactly as Note Off for the same pitch. */
  lemma ZeroVelocityIsNoteOff(channel: Byte, pitch: Byte, velocity: Byte)
    requires channel < 16
    ensures Decode([NOTE_ON + channel, pitch, 0]) == Decode([NOTE_OFF + channel, pitch, velocity])
    ensures Decode([NOTE_ON + channel, pitch, 0]) == RemovePitch(pitch)
  {
    assert StatusOf(NOTE_ON + channel) == NOTE_ON;
    assert StatusOf(NOTE_OFF + channel) == NOTE_OFF;
  }

  /** Every message type other than Note On and Note Off leaves the set unchanged. */
  lemma OtherStatusIgnored(notes: set<Note>, message: seq<Byte>)
    requires |message| >= 3
    requires StatusOf(message[0]) != NOTE_ON && StatusOf(message[0]) != NOTE_OFF
    ensures Apply(notes, Decode(message)) == notes
  {
  }

  /** No message ever stores an entry with velocity 0. */
  lemma StoredVelocitiesPositive(notes: set<Note>, message: seq<Byte>)
    requires AllSounding(notes)
    ensures AllSounding(Apply(notes, Decode(message)))
  {
  }
}
