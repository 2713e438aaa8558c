# MIDI tone synthesizer — a Dafny model

This project models the discrete core of a small Rust synthesizer. Note On / Note Off
messages edit a shared set of (note, velocity) pairs. An audio callback turns that set
into stereo sample frames and a visualization buffer.

There are two callbacks in the repository, and both are modelled:

- `process_audio_data` (src/audio.rs). It mixes square and sine tones, passes the sum
  through a feedback delay line (the reverb ring) and a four-frame moving average, and
  clamps the result. It writes each value to both slots of the frame's stereo chunk and
  to the zero-filled waveform buffer.
- The older stream callback in `main` (src/main.rs). It keeps a pitch-to-level envelope
  map and a wrapping `u64` sample clock across calls. Each frame it raises the level of
  every held note (attack), lowers every level (release), and removes levels at or below
  a threshold. It sums sine voices and writes the buffer without clearing it.

Layout, one module per file:

- `dsp.dfy` — module `Dsp`. `f32::clamp`, the float remainder `% 1.0`,
  `midi_note_to_freq`, the chunk count of `chunks_mut(2)`, and the stereo fan-out loop.
  `sin` and `2^x` are not defined: they are passed in as a `Transcendentals` value, and
  `Sane` states what the callbacks' lemmas assume of them, |sin x| <= 1 and 2^x > 0. Two
  lemmas about frequencies state further assumptions of their own.
- `state.dfy` — module `State`. `Note`, the `AppState` class (note set and waveform
  buffer), and its constructor.
- `midi.dfy` — module `Midi`. The message handler, as a decoder (`Decode`), a set
  transition (`Apply`) and the in-place method `OnMessage`, with its properties.
- `audio.dfy` — module `Audio`. `process_audio_data`, split into two parts. The note mix
  (`Mix`, `Phases`, `Drys`) turns each frame's phase table into a dry value. The effect
  line (`Effect`, `Chain`) turns dry values into output frames. `ProcessAudioData` writes
  exactly the frames of `Render`; the lemmas state what those frames are.
- `main.dfy` — module `Main`. The older callback as the class `StreamCallback`. Its
  fields `envelopes` and `sampleClock` persist between calls. `FrameStep` and `Run` are
  the specification functions, and `Invoke` is proved to follow them.

Where the code and the intended design disagree, the model follows the code:

- Phase accumulators, the reverb ring and the smoothing window are local to
  `process_audio_data`, so each call starts them afresh (`PhaseRestartsEachCall`,
  `RingZerosAhead`). Phases and reverb state do not carry over between buffers.
- The note set's key is the whole (note, velocity) pair. A pitch retriggered at another
  velocity gets a second entry (`RetriggerAddsSecondEntry`). The tone loop then advances
  that pitch's phase once per entry (`MixAdvances`).
- In the older callback, the release test looks for the pair (pitch, 0). No message ever
  stores a velocity-0 pair (`StoredVelocitiesPositive`), so the test always passes. On
  every frame, after the attack step, every envelope above the release threshold takes
  the release step, including the envelope of a held note. Every envelope at or below the
  threshold is removed (`HeldNotesAlsoReleased`).
- The older callback does not clear the waveform buffer. Slots past the frame count keep
  their earlier values (`StreamCallback.Invoke`).

## Model

| member | source | states |
|---|---|---|
| State.AppState.constructor | src/state.rs:16-21 | `AppState::new`: the note set is empty, and the waveform buffer has 1024 slots, all 0.0 |
| Midi.StatusOf | src/midi.rs:41 | `status & 0xF0` clears the channel nibble: the result is a multiple of 16 and lies within 16 below the byte |
| Midi.Decode | src/midi.rs:40-60 | fewer than 3 bytes: ignore. Note On with velocity > 0: insert exactly (byte 1, byte 2). Note Off, or Note On with velocity 0: remove byte 1's pitch. Any other status: ignore |
| Midi.Apply | src/midi.rs:47-59 | `insert` adds the pair and changes nothing else. `retain` keeps exactly the entries of other pitches. Ignore leaves the set as it was |
| Midi.OnMessage | src/midi.rs:39-61 | the in-place handler leaves the note set equal to `Apply(old set, Decode(message))` and keeps every stored velocity positive |
| Midi.ShortMessageIgnored | src/midi.rs:40 | a message shorter than 3 bytes leaves the set unchanged |
| Midi.ChannelIgnored | src/midi.rs:41 | changing the channel nibble of byte 0 never changes the action |
| Midi.TrailingBytesIgnored | src/midi.rs:40-43 | bytes after the third never change the action |
| Midi.NoteOnAddsPair | src/midi.rs:47-49 | Note On on any channel with velocity > 0 leaves the set as the old set plus exactly that pair |
| Midi.NoteOnIdempotent | src/midi.rs:49 | sending the same Note On twice leaves the set the first one left |
| Midi.RetriggerAddsSecondEntry | src/midi.rs:49 | a Note On for a held pitch at a new velocity keeps the old entry, adds the new one, and grows the set by one |
| Midi.NoteOffRemovesPitch | src/midi.rs:52-54 | Note Off on any channel, at any velocity, removes every entry of the pitch and keeps every entry of every other pitch |
| Midi.ZeroVelocityIsNoteOff | src/midi.rs:52 | Note On with velocity 0 decodes to the same removal as Note Off for that pitch |
| Midi.OtherStatusIgnored | src/midi.rs:57-59 | any status other than 0x80 and 0x90 leaves the set unchanged |
| Midi.StoredVelocitiesPositive | src/midi.rs:47-54 | if every stored entry has velocity > 0, it still holds after any message |
| Main.OnKeyboardMessage | src/main.rs:41-59 | the keyboard closure in `main` changes the note set exactly as the listener's handler does |
| Dsp.Clamp | src/audio.rs:134 | `clamp(lo, hi)` returns a value in [lo, hi]: the input inside the range, otherwise the bound it passed |
| Dsp.RemOne | src/audio.rs:107 | float `% 1.0` puts a non-negative input in [0, 1) and a negative one in (-1, 0]. It differs from the input by a whole number and leaves [0, 1) unchanged |
| Dsp.NoteToFreq | src/audio.rs:149-151 | defines `midi_note_to_freq` (the same function as src/main.rs:184-186): 440 Hz times 2^((note − 69) / 12), with 2^x taken from the `Transcendentals` parameter. Under `Sane` the result is positive |
| Dsp.NoteToFreqPositive | src/audio.rs:149-151 | if 2^x > 0, every note has a positive frequency |
| Dsp.ConcertPitch | src/audio.rs:149-151 | note 69 sounds at 440 Hz whenever 2^0 = 1 |
| Dsp.NoteToFreqMonotonic | src/audio.rs:149-151 | if 2^x is increasing, a higher note has a higher frequency |
| Dsp.FrameCount | src/audio.rs:99 | `chunks_mut(2)` yields half the slice length, rounded up: the last chunk may hold one slot |
| Dsp.FanOut | src/audio.rs:136-138 | every slot of the chunk, two slots or a single trailing one, receives the value. Every other slot keeps its value |
| Audio.Shape | src/audio.rs:110-114 | 0.7 of the square wave plus 0.3 of the sine lies in [-1, 1] |
| Audio.Tone | src/audio.rs:116-118 | a note's tone lies within ±velocity/127 |
| Audio.Advance | src/audio.rs:104-107 | one phase update from a non-negative phase lands in [0, 1) |
| Audio.Mix | src/audio.rs:103-119 | defines the loop over the note set for one frame, in iteration order. Each entry advances its pitch's accumulator (starting at 0.0 when missing) and adds its tone at the new phase. Returns the dry sum and the phase table |
| Audio.Sum | src/audio.rs:132 | defines `smoothing_buffer.iter().sum()`: the values added left to right |
| Audio.Phases | src/audio.rs:91-107 | defines the phase table after n frames of a call, starting from an empty table |
| Audio.Drys | src/audio.rs:100-119 | the dry values of a call's first n frames: one per frame, each the note loop's sum at that frame's phase table |
| Audio.Render | src/audio.rs:99-134 | the frames of a call's first n frames: the effect line run over the dry values, one frame each |
| Audio.Effect | src/audio.rs:121-134 | one frame of the effect line: wet = dry + 0.5 × the ring slot at the cursor. That slot is overwritten with the wet value. The cursor moves one slot, wrapping at 48000. The window drops its oldest value and appends the wet one. The value lies in [-1, 1] |
| Audio.Initial | src/audio.rs:92-97 | every call starts from a zero ring of 48000 slots at cursor 0 and a zero window of 4 |
| Audio.Chain | src/audio.rs:99-134 | the effect line over a call's dry values yields one frame per dry value and a well-formed state |
| Audio.ChainPrefix | src/audio.rs:99 | frames already produced do not depend on the frames that follow |
| Audio.ChainDry | src/audio.rs:100-119 | frame k carries dry value k |
| Audio.ValuesBounded | src/audio.rs:134-138 | every value a call writes lies in [-1, 1] |
| Audio.CursorAdvances | src/audio.rs:97-125 | after n frames `reverb_index` is n mod 48000 |
| Audio.RingHoldsRecent | src/audio.rs:122-125 | after n frames, the ring slot of each of the last 48000 frames holds that frame's wet value |
| Audio.RingZerosAhead | src/audio.rs:96-125 | ring slots the call has not reached yet still hold 0.0 |
| Audio.ReverbEcho | src/audio.rs:122-125 | frame k's wet value is its dry value plus 0.5 × the wet value of frame k − 48000, or plus nothing in the call's first 48000 frames |
| Audio.WindowContents | src/audio.rs:130-131 | after n frames the window holds the wet values of frames n−4 to n−1, with 0.0 standing in before the call's start |
| Audio.SmoothedValue | src/audio.rs:129-134 | frame k's value is the mean of the wet values of frames k−3 to k, with zeros before the call's start, clamped to [-1, 1] |
| Audio.SilenceKeepsState | src/audio.rs:121-132 | after n silent frames the ring and window are all zeros and the cursor is n mod 48000 |
| Audio.SilenceStaysSilent | src/audio.rs:121-134 | an all-zero dry signal gives frames whose dry, wet and output values are all exactly 0.0 |
| Audio.RepeatAdd | src/audio.rs:105-107 | a updates of an accumulator followed by b more are a + b updates |
| Audio.MixAdvances | src/audio.rs:103-107 | one frame's note loop advances a pitch's accumulator once per set entry of that pitch, whatever the order |
| Audio.MixKeys | src/audio.rs:105 | after one frame's note loop, a pitch has an accumulator iff it had one before or the set holds it (`or_insert`) |
| Audio.PhaseRestartsEachCall | src/audio.rs:91-107 | after n frames of a call, a pitch held at c velocities has been advanced n·c times from 0.0 |
| Audio.PhaseKeys | src/audio.rs:91-105 | a pitch has an accumulator iff at least one frame has run and the set holds that pitch |
| Audio.PhasesInUnit | src/audio.rs:105-107 | if sin and 2^x are within their assumed bounds, every accumulator lies in [0, 1) and belongs to a held pitch |
| Audio.DryIsMix | src/audio.rs:100-119 | frame k's dry value is the note loop's sum at the phase table k frames into the call |
| Audio.DrysPrefix | src/audio.rs:99-119 | the dry values of the first m frames do not depend on how many frames follow |
| Audio.SilentWithoutNotes | src/audio.rs:92-134 | with an empty note set, every frame is exactly 0.0 before and after the effects |
| State.CountedOnSet | src/state.rs:8 | iterating the note set visits a pitch once for every velocity the set holds it at. `Occurrences` in the other lemmas therefore counts the set's entries of the pitch, whatever the iteration order |
| Audio.RotateLeft | src/audio.rs:130 | `rotate_left(1)` moves the first element to the end and shifts the rest down by one |
| Audio.MixNotes | src/audio.rs:100-119 | the loop over the notes returns the sum and phase table of `Mix` |
| Audio.RenderFrame | src/audio.rs:100-134 | one frame's loop body computes the frame `Effect` gives for the mixed dry value, and leaves the ring, cursor and window in `Effect`'s next state |
| Audio.RenderFrames | src/audio.rs:91-145 | the frame loop renders exactly `Render`'s frames into `data` and the waveform buffer |
| Audio.Publish | src/audio.rs:136-144 | the frame's value goes to every slot of chunk k. While there is room, it also goes to the next waveform slot. Everything else already written is kept |
| Audio.ProcessAudioData | src/audio.rs:84-146 | slot i of `data` gets frame i/2's value. The waveform buffer holds the first frames' values and 0.0 after them |
| Main.AttackTime | src/main.rs:92 | the attack time is positive for a positive sample rate |
| Main.ReleaseTime | src/main.rs:93 | the release time is positive for a positive sample rate |
| Main.PhaseIncrement | src/main.rs:90 | the angle per frame of a 1 Hz tone, 2π divided by the sample rate, is positive |
| Main.AttackStep | src/main.rs:111-114 | a level in [0, 1) rises but stays at most 1. A level at 1 or above is left alone. [0, 1] is preserved |
| Main.ReleaseStep | src/main.rs:126-127 | the stepped level lies in [0, 1] and is lower than a positive input level. It is 0 exactly when the level was at most 1/release time |
| Main.Voice | src/main.rs:116-118 | if \|sin\| <= 1, a voice lies within ±0.2 × its level |
| Main.FrameStep | src/main.rs:106-152 | a frame's value lies in [-1, 1], and the clock moves to clock + 1 mod 2^64 |
| Main.Attack | src/main.rs:109-119 | defines the attack loop over the note set, in iteration order. Each entry takes its pitch's level (0.0 when missing) one attack step further and adds a voice at the new level. Returns the sum and the envelope map |
| Main.AttackRepeat | src/main.rs:110-114 | a level in [0, 1] stays in [0, 1] and never falls under repeated attack steps. A level below 1 rises with the first step |
| Main.AttackRaises | src/main.rs:109-114 | after the attack loop, a pitch's level is its old level (0.0 when missing) taken one attack step further per entry of that pitch |
| Main.NewNoteAttacks | src/main.rs:110-114 | a pitch held without an envelope starts from 0.0. After the frame's attack loop its level is one attack step up per velocity it is held at: above 0.0 and at most 1.0 |
| Main.AttackLevels | src/main.rs:110-114 | the attack loop keeps every level in [0, 1] |
| Main.AttackKeys | src/main.rs:110 | after the attack loop a pitch has an envelope iff it had one before or the note set holds it |
| Main.AttackLeavesOthers | src/main.rs:109-114 | the attack loop leaves the level of a pitch the set does not hold unchanged |
| Main.Partial | src/main.rs:122-134 | defines the envelope map once the release loop has visited some keys. A visited pitch without a (pitch, 0) entry is stepped down while above the threshold and removed at or below it. Every other pitch keeps its level |
| Main.Released | src/main.rs:122-134 | defines the envelope map after the release loop has visited every key |
| Main.ReleaseSum | src/main.rs:128-130 | defines the release voices of the visited pitches, added in pitch order |
| Main.ReleasedNoteFades | src/main.rs:109-134 | for a pitch with no entry left in the note set, a frame keeps the envelope exactly while it is above the threshold, and a kept level is lower than before. A released note's level never rises |
| Main.ReleasedLevels | src/main.rs:122-134 | the release loop keeps every level in [0, 1] |
| Main.HeldNotesAlsoReleased | src/main.rs:122-134 | if no stored pair has velocity 0, the entries kept are exactly those above the threshold, and each of them takes the release step, whether its note is held or not |
| Main.RemovedOnlyAtThreshold | src/main.rs:123-133 | an entry is removed iff (pitch, 0) is absent and its level is at or below the threshold. With (pitch, 0) present, the level is untouched |
| Main.ReleasedKeys | src/main.rs:122-134 | the release loop never creates an entry |
| Main.ReleaseSumAdd | src/main.rs:128-130 | visiting one more pitch adds that pitch's release voice to the sum |
| Main.ReleaseOne | src/main.rs:123-134 | one pass of the release loop changes only the visited pitch's entry: kept, stepped down, or removed |
| Main.ReleaseLoop | src/main.rs:122-136 | whichever order the keys are visited in, the loop ends with the map `Released` and the value `start` plus every release voice |
| Main.AttackLoop | src/main.rs:109-119 | the loop over the note set returns the voices' sum and envelope map of `Attack` |
| Main.Run | src/main.rs:104-153 | the values of n frames and the envelopes and clock after them: `FrameStep` iterated n times, one value per frame |
| Main.Publish | src/main.rs:141-149 | the frame's value goes to every slot of chunk k. While there is room, it also goes to the next buffer slot. Slots past the write index keep their old values |
| Main.ClockWraps | src/main.rs:152 | after n frames the clock is the starting clock plus n, mod 2^64 |
| Main.ValuesBounded | src/main.rs:139-143 | every frame value the callback plays lies in [-1, 1] |
| Main.RunLevels | src/main.rs:110-133 | levels stay in [0, 1] over any number of frames |
| Main.CallsCompose | src/main.rs:88-153 | a call of n frames followed by a call of m frames plays and leaves what one call of n + m frames would: the envelopes and the clock persist |
| Main.IterateCompose | src/main.rs:104-153 | for any per-frame step, n frames followed by m more frames from the state reached are n + m frames |
| Main.QuietWhenIdle | src/main.rs:106-152 | with no notes and no envelopes, a frame plays 0.0 and leaves the envelope map empty |
| Main.StreamCallback.constructor | src/main.rs:88-91 | before the first call, there are no envelopes and the clock is 0 |
| Main.StreamCallback.RenderFrame | src/main.rs:106-152 | both note loops, the clamp and the clock tick produce `FrameStep`'s value and state |
| Main.StreamCallback.Invoke | src/main.rs:99-153 | slot i of `data` gets frame i/2's value. The buffer's first slots get the first frames' values and later slots keep what they held. The envelopes and the clock move to the state `Run` reaches |

## Left out

- Device and port discovery, stream construction, error callbacks and keep-alive loops. This is cpal, midir and thread I/O, and it includes the `in_ports[1]` port choice.
- `Arc`/`Mutex` locking and the threads. Each callback is a sequential method on state it owns for the call, so which note-set snapshot a buffer sees is not modelled.
- `src/ui.rs` and `WaveformApp` are not part of this model. They render with egui.
- `f32` rounding. Samples, levels and phases are exact reals.
- `sin` and `powf`. They are parameters. The lemmas about the callbacks assume only |sin x| <= 1 and 2^x > 0 (`Dsp.Sane`). `Dsp.ConcertPitch` also assumes 2^0 = 1, and `Dsp.NoteToFreqMonotonic` also assumes that 2^x is strictly increasing.
- `Sample::from_sample` is taken as the identity on `f32`.
- The clock's `u64` to `f32` conversion in the voice's angle is taken as exact.
- HashSet iteration order. It is a parameter `order` that lists the set once per element. The same order is used for every frame of a call, because the set stays locked for the whole call.
- HashMap key order in the release loop. It is an arbitrary choice (`:|`). The loop's result is stated in pitch order, which does not change a sum of exact reals.
- `main` keeps its note set and its 1024-slot waveform buffer as two separate `Arc<Mutex<…>>` values, not an `AppState`. The model puts the pair in a `State.AppState`, which is why `Main.OnKeyboardMessage` and `Main.StreamCallback.Invoke` require its `Valid()`: a 1024-slot buffer, as `main` allocates, and only positive velocities, as the keyboard closure stores.
- Audio.ProcessAudioData: requires a positive sample rate, which the source takes from the device. With a sample rate of 0 the source would divide by zero, and that case is not modelled.
- Main.StreamCallback.Invoke: requires a positive sample rate, for the same reason.
- Audio.Mix: the dry sum follows the set's iteration order. Independence from that order is not proved. It does not hold exactly when one pitch is held at two velocities, because the second entry sees the phase the first already advanced.
- The waveform buffer's length is unchanged by a call. This holds because Dafny arrays have fixed length, so no lemma states it.
