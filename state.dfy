/**
 * The state shared between the MIDI listener, the audio callback and the
 * visualizer: the set of active notes and the waveform buffer.
 */
module State {

  /** A Rust `u8`. */
  type Byte = b: int | 0 <= b < 256

  /**
   * An entry of the active-note set. The whole (note, velocity) pair is the
   * set's key, so one pitch may be present with several velocities.
   */
  datatype Note = Note(pitch: Byte, velocity: Byte)

  /** Number of samples the visualization buffer holds. */
  const WAVEFORM_LEN: nat := 1024

  /** Every entry was stored by a Note On with a non-zero velocity. */
  ghost predicate AllSounding(notes: set<Note>)
  {
    forall n :: n in notes ==> n.velocity > 0
  }

  /**
   * `order` lists the elements of `notes` once each: the order in which
   * iterating the `HashSet` visits them. The callbacks hold the set's lock
   * for the whole buffer, so every frame of one call sees the same order.
   */
  ghost predicate IsEnumeration(order: seq<Note>, notes: set<Note>)
  {
    && (forall n :: n in notes <==> n in order)
    && (forall i, j :: 0 <= i < j < |order| ==> order[i] != order[j])
  }

  /** How many entries of `order` have pitch `pitch`: the set may hold one pitch at several velocities. */
  function Occurrences(order: seq<Note>, pitch: Byte): nat
  {
    if order == [] then 0
    else Occurrences(order[..|order| - 1], pitch) + (if order[|order| - 1].pitch == pitch then 1 else 0)
  }

  /** The entries of `notes` with pitch `pitch`: one per velocity the pitch is held at. */
  function EntriesOf(notes: set<Note>, pitch: Byte): (r: set<Note>)
    ensures forall n :: n in r <==> n in notes && n.pitch == pitch
  {
    set n | n in notes && n.pitch == pitch
  }

  /** In a list without repeats, a pitch occurs once per distinct entry of that pitch. */
  lemma {:induction false} OccurrencesDistinct(order: seq<Note>, pitch: Byte)
    requires forall i, j :: 0 <= i < j < |order| ==> order[i] != order[j]
    ensures Occurrences(order, pitch) == |EntriesOf((set n | n in order), pitch)|
  {
    if order != [] {
      var shorter := order[..|order| - 1];
      var last := order[|order| - 1];
      OccurrencesDistinct(shorter, pitch);
      var before := EntriesOf((set n | n in shorter), pitch);
      var after := EntriesOf((set n | n in order), pitch);
      assert forall i :: 0 <= i < |shorter| ==> shorter[i] == order[i] != last;
      assert last !in shorter;
      assert forall n :: n in order <==> n in shorter || n == last;
      if last.pitch == pitch {
        assert after == before + {last};
      } else {
        assert after == before;
      }
    }
  }

  /**
   * Iterating a set visits a pitch once for every velocity the set holds it
   * at: the count is a property of the set, not of the iteration order.
   */
  lemma CountedOnSet(order: seq<Note>, notes: set<Note>, pitch: Byte)
    requires IsEnumeration(order, notes)
    ensures Occurrences(order, pitch) == |EntriesOf(notes, pitch)|
  {
    OccurrencesDistinct(order, pitch);
    assert (set n | n in order) == notes;
  }

  class AppState {
    /** The notes currently held down. */
    var activeNotes: set<Note>
    /** Recent output samples, for display; its length never changes. */
    const waveform: array<real>

    ghost predicate Valid()
      reads this
    {
      waveform.Length == WAVEFORM_LEN && AllSounding(activeNotes)
    }

    /** `AppState::new`: no active notes and a buffer of 1024 zero samples. */
    constructor ()
      ensures Valid() && fresh(waveform)
      ensures activeNotes == {}
      ensures waveform.Length == WAVEFORM_LEN
      ensures forall i :: 0 <= i < waveform.Length ==> waveform[i] == 0.0
    {
      activeNotes := {};
      waveform := new real[WAVEFORM_LEN](_ => 0.0);
    }
  }
}
