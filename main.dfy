/**
 * The older output-stream callback of `main`, with its own MIDI closure.
 *
 * Per frame: every entry of the note set raises its pitch's envelope level
 * (an attack step) and adds a sine voice at that level; then every pitch
 * that has an envelope takes a release step and adds a voice, or is dropped
 * once its level is at or below the release threshold. The frame value is
 * clamped to [-1, 1], written to every slot of its chunk and, while there is
 * room, to the waveform buffer, which is not cleared first. The sample clock
 * advances by one per frame, wrapping at 2^64.
 *
 * Unlike `process_audio_data`, the envelope map and the sample clock live in
 * the callback and persist from one call to the next: they are the fields of
 * `StreamCallback`.
 *
 * The release test asks whether the note set holds the pair (pitch, 0). No
 * message ever stores a velocity-0 pair, so the test always passes: held
 * notes take the release step on every frame as well (`HeldNotesAlsoReleased`).
 */
module Main {
  import opened Dsp
  import opened State
  import Midi

  /** Amplitude of one voice at full envelope. */
  const BASE_VOLUME: real := 0.2
  /** An envelope at or below this level is removed by the release loop. */
  const RELEASE_THRESHOLD: real := 0.0001
  /** `u64::MAX + 1`: the sample clock wraps here. */
  const U64_MODULUS: nat := 0x1_0000_0000_0000_0000
  /** Number of `u8` pitches: the release sum runs over pitches below this. */
  const PITCHES: nat := 256

  /** Attack time of 10 ms, in frames. */
  function AttackTime(sampleRate: real): (t: real)
    requires sampleRate > 0.0
    ensures t > 0.0
  {
    sampleRate * 0.01
  }

  /** Release time of 300 ms, in frames. */
  function ReleaseTime(sampleRate: real): (t: real)
    requires sampleRate > 0.0
    ensures t > 0.0
  {
    sampleRate * 0.3
  }

  /** Radians per frame for a 1 Hz tone: 2 pi / sample rate. */
  function PhaseIncrement(sampleRate: real): (r: real)
    requires sampleRate > 0.0
    ensures r > 0.0
  {
    2.0 * PI / sampleRate
  }

  /** Every envelope level lies in [0, 1]. */
  ghost predicate Levels(envelopes: map<Byte, real>)
  {
    forall p :: p in envelopes ==> 0.0 <= envelopes[p] <= 1.0
  }

  /**
   * One attack step: a level below 1.0 rises by 1 / attack time and is
   * clamped to [0, 1]; a level at 1.0 or above is left alone.
   */
  function AttackStep(sampleRate: real, level: real): (r: real)
    requires sampleRate > 0.0
    ensures 0.0 <= level < 1.0 ==> level < r <= 1.0
    ensures 1.0 <= level ==> r == level
    ensures 0.0 <= level <= 1.0 ==> 0.0 <= r <= 1.0
  {
    if level < 1.0 then Clamp(level + 1.0 / AttackTime(sampleRate), 0.0, 1.0) else level
  }

  /** One release step: the level falls by 1 / release time, clamped to [0, 1]. */
  function ReleaseStep(sampleRate: real, level: real): (r: real)
    requires sampleRate > 0.0
    ensures 0.0 <= r <= 1.0
    ensures 0.0 < level <= 1.0 ==> r < level
    ensures r == 0.0 <==> level <= 1.0 / ReleaseTime(sampleRate)
  {
    Clamp(level - 1.0 / ReleaseTime(sampleRate), 0.0, 1.0)
  }

  /**
   * One voice: sin(clock * frequency * phase increment) times the base
   * volume times the envelope level. The clock's conversion to `f32` is
   * taken as exact.
   */
  function Voice(fns: Transcendentals, sampleRate: real, clock: nat, pitch: Byte, level: real): (r: real)
    requires sampleRate > 0.0
    ensures Sane(fns) && 0.0 <= level ==> -(BASE_VOLUME * level) <= r <= BASE_VOLUME * level
  {
    var angle := clock as real * NoteToFreq(fns, pitch) * PhaseIncrement(sampleRate);
    assert Sane(fns) ==> -1.0 <= fns.sin(angle) <= 1.0;
    Scale(fns.sin(angle), BASE_VOLUME * level)
  }

  /** The level `entry(pitch).or_insert(0.0)` starts from. */
  function LevelOf(envelopes: map<Byte, real>, pitch: Byte): real
  {
    if pitch in envelopes then envelopes[pitch] else 0.0
  }

  /**
   * The attack loop over the note set, in iteration order: the voices' sum
   * and the envelope map afterwards. Each entry attacks its pitch once, so a
   * pitch held at two velocities is attacked twice.
   */
  function Attack(fns: Transcendentals, sampleRate: real, clock: nat, order: seq<Note>, envelopes: map<Byte, real>)
    : (r: (real, map<Byte, real>))
    requires sampleRate > 0.0
    decreases |order|
  {
    if order == [] then (0.0, envelopes)
    else
      var prev := Attack(fns, sampleRate, clock, order[..|order| - 1], envelopes);
      var n := order[|order| - 1];
      var level := AttackStep(sampleRate, LevelOf(prev.1, n.pitch));
      (prev.0 + Voice(fns, sampleRate, clock, n.pitch, level), prev.1[n.pitch := level])
  }

  /**
   * The envelope map once the release loop has visited the pitches in
   * `done`: a visited pitch is left alone if (pitch, 0) is in the note set,
   * else stepped down while above the threshold and removed at or below it.
   */
  function Partial(sampleRate: real, envelopes: map<Byte, real>, active: set<Note>, done: set<Byte>): map<Byte, real>
    requires sampleRate > 0.0
  {
    map p | p in envelopes && (p !in done || Note(p, 0) in active || envelopes[p] > RELEASE_THRESHOLD)
      :: if p in done && Note(p, 0) !in active then ReleaseStep(sampleRate, envelopes[p]) else envelopes[p]
  }

  /** The envelope map after the whole release loop. */
  function Released(sampleRate: real, envelopes: map<Byte, real>, active: set<Note>): map<Byte, real>
    requires sampleRate > 0.0
  {
    Partial(sampleRate, envelopes, active, envelopes.Keys)
  }

  /** What the release loop adds for `pitch`: a voice at the stepped level, or nothing. */
  function Contribution(fns: Transcendentals, sampleRate: real, clock: nat, envelopes: map<Byte, real>, active: set<Note>, pitch: Byte): real
    requires sampleRate > 0.0
  {
    if pitch in envelopes && Note(pitch, 0) !in active && envelopes[pitch] > RELEASE_THRESHOLD
    then Voice(fns, sampleRate, clock, pitch, ReleaseStep(sampleRate, envelopes[pitch]))
    else 0.0
  }

  /**
   * The release voices of the pitches in `done` below `n`, added by pitch.
   * The map's iteration order does not matter to a sum of reals, so the
   * sum is taken in pitch order.
   */
  function ReleaseSum(fns: Transcendentals, sampleRate: real, clock: nat, envelopes: map<Byte, real>, active: set<Note>,
                      done: set<Byte>, n: nat): real
    requires sampleRate > 0.0 && n <= PITCHES
  {
    if n == 0 then 0.0
    else
      ReleaseSum(fns, sampleRate, clock, envelopes, active, done, n - 1)
      + (if n - 1 in done then Contribution(fns, sampleRate, clock, envelopes, active, n - 1) else 0.0)
  }

  /** The state a frame leaves behind and the value it plays. */
  datatype Step = Step(value: real, envelopes: map<Byte, real>, clock: nat)

  /** One frame: attack loop, release loop, clamp, clock tick. */
  function FrameStep(fns: Transcendentals, sampleRate: real, order: seq<Note>, active: set<Note>,
                     envelopes: map<Byte, real>, clock: nat): (r: Step)
    requires sampleRate > 0.0
    ensures -1.0 <= r.value <= 1.0
    ensures r.clock == (clock + 1) % U64_MODULUS
  {
    var attacked := Attack(fns, sampleRate, clock, order, envelopes);
    var released := ReleaseSum(fns, sampleRate, clock, attacked.1, active, attacked.1.Keys, PITCHES);
    Step(Clamp(attacked.0 + released, -1.0, 1.0),
         Released(sampleRate, attacked.1, active),
         (clock + 1) % U64_MODULUS)
  }

  /** The values of `n` frames and the state after them. */
  datatype RunOut = RunOut(values: seq<real>, envelopes: map<Byte, real>, clock: nat)

  /** `n` frames of `step` from the given envelopes and clock. */
  function Iterate(step: (map<Byte, real>, nat) -> Step, envelopes: map<Byte, real>, clock: nat, n: nat): (r: RunOut)
    ensures |r.values| == n
  {
    if n == 0 then RunOut([], envelopes, clock)
    else
      var prev := Iterate(step, envelopes, clock, n - 1);
      Extend(prev, step(prev.envelopes, prev.clock))
  }

  /** One frame of the callback, as a function of the envelopes and the clock. */
  function Stepper(fns: Transcendentals, sampleRate: real, order: seq<Note>, active: set<Note>): (map<Byte, real>, nat) -> Step
    requires sampleRate > 0.0
  {
    (envelopes: map<Byte, real>, clock: nat) => FrameStep(fns, sampleRate, order, active, envelopes, clock)
  }

  /** `n` frames of the callback from the given envelopes and clock. */
  function Run(fns: Transcendentals, sampleRate: real, order: seq<Note>, active: set<Note>,
               envelopes: map<Byte, real>, clock: nat, n: nat): (r: RunOut)
    requires sampleRate > 0.0
    ensures |r.values| == n
  {
    Iterate(Stepper(fns, sampleRate, order, active), envelopes, clock, n)
  }

  /** A run followed by one more frame: its value appended, and the state that frame leaves. */
  function Extend(run: RunOut, step: Step): (r: RunOut)
    ensures |r.values| == |run.values| + 1 && r.values[..|run.values|] == run.values
    ensures r.values[|run.values|] == step.value && r.envelopes == step.envelopes && r.clock == step.clock
  {
    RunOut(run.values + [step.value], step.envelopes, step.clock)
  }

  /** The first `i + 1` entries without the last are the first `i`. */
  lemma Unsnoc<T>(s: seq<T>, i: nat)
    requires i < |s|
    ensures s[..i + 1][..i] == s[..i] && s[..i + 1][i] == s[i]
  {
  }

  /** The prefix of full length is the whole sequence. */
  lemma Whole<T>(s: seq<T>)
    ensures s[..|s|] == s
  {
  }

  // ---------------------------------------------------------------------------
  // Properties of the attack loop.

  /** The attack loop keeps every level in [0, 1]. */
  lemma {:induction false} AttackLevels(fns: Transcendentals, sampleRate: real, clock: nat, order: seq<Note>, envelopes: map<Byte, real>)
    requires sampleRate > 0.0 && Levels(envelopes)
    ensures Levels(Attack(fns, sampleRate, clock, order, envelopes).1)
    decreases |order|
  {
    if order != [] {
      AttackLevels(fns, sampleRate, clock, order[..|order| - 1], envelopes);
    }
  }

  /**
   * After the attack loop a pitch has an envelope iff it had one before or
   * the note set holds it (`or_insert` creates missing entries).
   */
  lemma {:induction false} AttackKeys(fns: Transcendentals, sampleRate: real, clock: nat, order: seq<Note>,
                                      envelopes: map<Byte, real>, pitch: Byte)
    requires sampleRate > 0.0
    ensures pitch in Attack(fns, sampleRate, clock, order, envelopes).1
            <==> pitch in envelopes || exists i :: 0 <= i < |order| && order[i].pitch == pitch
    decreases |order|
  {
    if order != [] {
      var shorter := order[..|order| - 1];
      AttackKeys(fns, sampleRate, clock, shorter, envelopes, pitch);
      if exists i :: 0 <= i < |shorter| && shorter[i].pitch == pitch {
        var i :| 0 <= i < |shorter| && shorter[i].pitch == pitch;
        assert order[i].pitch == pitch;
      }
      if exists i :: 0 <= i < |order| && order[i].pitch == pitch {
        var i :| 0 <= i < |order| && order[i].pitch == pitch;
        if i < |shorter| {
          assert shorter[i].pitch == pitch;
        }
      }
    }
  }

  /** A pitch the note set does not hold keeps its level through the attack loop. */
  lemma {:induction false} AttackLeavesOthers(fns: Transcendentals, sampleRate: real, clock: nat, order: seq<Note>,
                                              envelopes: map<Byte, real>, pitch: Byte)
    requires sampleRate > 0.0
    requires forall i :: 0 <= i < |order| ==> order[i].pitch != pitch
    ensures LevelOf(Attack(fns, sampleRate, clock, order, envelopes).1, pitch) == LevelOf(envelopes, pitch)
    decreases |order|
  {
    if order != [] {
      AttackLeavesOthers(fns, sampleRate, clock, order[..|order| - 1], envelopes, pitch);
    }
  }

  /** A level after `k` attack steps. */
  function AttackRepeat(sampleRate: real, level: real, k: nat): (r: real)
    requires sampleRate > 0.0
    ensures 0.0 <= level <= 1.0 ==> level <= r <= 1.0
    ensures 0.0 <= level < 1.0 && k > 0 ==> level < r
  {
    if k == 0 then level else AttackStep(sampleRate, AttackRepeat(sampleRate, level, k - 1))
  }

  /**
   * The attack loop takes a pitch's level, 0.0 when it has no entry yet, one
   * attack step further for every entry of that pitch in the note set.
   */
  lemma {:induction false} AttackRaises(fns: Transcendentals, sampleRate: real, clock: nat, order: seq<Note>,
                                        envelopes: map<Byte, real>, pitch: Byte)
    requires sampleRate > 0.0
    ensures LevelOf(Attack(fns, sampleRate, clock, order, envelopes).1, pitch)
            == AttackRepeat(sampleRate, LevelOf(envelopes, pitch), Occurrences(order, pitch))
    decreases |order|
  {
    if order != [] {
      AttackRaises(fns, sampleRate, clock, order[..|order| - 1], envelopes, pitch);
    }
  }

  /**
   * A note just pressed, whose pitch has no envelope yet, starts from 0.0 and
   * rises by one attack step per velocity it is held at during the frame.
   */
  lemma NewNoteAttacks(fns: Transcendentals, sampleRate: real, clock: nat, order: seq<Note>, active: set<Note>,
                       envelopes: map<Byte, real>, pitch: Byte)
    requires sampleRate > 0.0 && IsEnumeration(order, active)
    requires pitch !in envelopes && EntriesOf(active, pitch) != {}
    ensures var level := LevelOf(Attack(fns, sampleRate, clock, order, envelopes).1, pitch);
            level == AttackRepeat(sampleRate, 0.0, |EntriesOf(active, pitch)|) && 0.0 < level <= 1.0
  {
    AttackRaises(fns, sampleRate, clock, order, envelopes, pitch);
    CountedOnSet(order, active, pitch);
  }

  // ---------------------------------------------------------------------------
  // Properties of the release loop.

  /** The release loop keeps every level in [0, 1]. */
  lemma ReleasedLevels(sampleRate: real, envelopes: map<Byte, real>, active: set<Note>)
    requires sampleRate > 0.0 && Levels(envelopes)
    ensures Levels(Released(sampleRate, envelopes, active))
  {
  }

  /**
   * Since the note set never holds a velocity-0 pair, the release test never
   * spares a pitch: every envelope above the threshold, held or not, takes the
   * release step, and every other one is removed.
   */
  lemma HeldNotesAlsoReleased(sampleRate: real, envelopes: map<Byte, real>, active: set<Note>)
    requires sampleRate > 0.0 && AllSounding(active)
    ensures var r := Released(sampleRate, envelopes, active);
            && (forall p :: p in r <==> p in envelopes && envelopes[p] > RELEASE_THRESHOLD)
            && (forall p :: p in r ==> r[p] == ReleaseStep(sampleRate, envelopes[p]))
  {
    assert forall p: Byte :: Note(p, 0) !in active;
  }

  /**
   * Once no entry of the note set has a pitch, a frame never raises that
   * pitch's level: it stays only while above the threshold, and then falls.
   */
  lemma ReleasedNoteFades(fns: Transcendentals, sampleRate: real, order: seq<Note>, active: set<Note>,
                          envelopes: map<Byte, real>, clock: nat, pitch: Byte)
    requires sampleRate > 0.0 && IsEnumeration(order, active) && AllSounding(active)
    requires Levels(envelopes) && pitch in envelopes && EntriesOf(active, pitch) == {}
    ensures var after := FrameStep(fns, sampleRate, order, active, envelopes, clock).envelopes;
            pitch in after <==> envelopes[pitch] > RELEASE_THRESHOLD
    ensures var after := FrameStep(fns, sampleRate, order, active, envelopes, clock).envelopes;
            pitch in after ==> after[pitch] < envelopes[pitch]
  {
    assert forall i :: 0 <= i < |order| ==> order[i] in active && order[i] !in EntriesOf(active, pitch);
    var attacked := Attack(fns, sampleRate, clock, order, envelopes).1;
    AttackLeavesOthers(fns, sampleRate, clock, order, envelopes, pitch);
    AttackKeys(fns, sampleRate, clock, order, envelopes, pitch);
    HeldNotesAlsoReleased(sampleRate, attacked, active);
  }

  /** A pitch is removed only when its level is at or below the threshold, and a held velocity-0 pair keeps it as it is. */
  lemma RemovedOnlyAtThreshold(sampleRate: real, envelopes: map<Byte, real>, active: set<Note>, pitch: Byte)
    requires sampleRate > 0.0 && pitch in envelopes
    ensures pitch !in Released(sampleRate, envelopes, active)
            <==> Note(pitch, 0) !in active && envelopes[pitch] <= RELEASE_THRESHOLD
    ensures Note(pitch, 0) in active ==> Released(sampleRate, envelopes, active)[pitch] == envelopes[pitch]
  {
  }

  /** The release loop never creates an entry. */
  lemma ReleasedKeys(sampleRate: real, envelopes: map<Byte, real>, active: set<Note>)
    requires sampleRate > 0.0
    ensures Released(sampleRate, envelopes, active).Keys <= envelopes.Keys
  {
  }

  /** Adding one more visited pitch adds its contribution to the sum. */
  lemma {:induction false} ReleaseSumAdd(fns: Transcendentals, sampleRate: real, clock: nat, envelopes: map<Byte, real>,
                                         active: set<Note>, done: set<Byte>, pitch: Byte, n: nat)
    requires sampleRate > 0.0 && n <= PITCHES && pitch !in done
    ensures ReleaseSum(fns, sampleRate, clock, envelopes, active, done + {pitch}, n)
            == ReleaseSum(fns, sampleRate, clock, envelopes, active, done, n)
               + (if pitch < n then Contribution(fns, sampleRate, clock, envelopes, active, pitch) else 0.0)
  {
    if n > 0 {
      ReleaseSumAdd(fns, sampleRate, clock, envelopes, active, done, pitch, n - 1);
    }
  }

  /** Nothing visited, nothing added. */
  lemma {:induction false} ReleaseSumEmpty(fns: Transcendentals, sampleRate: real, clock: nat, envelopes: map<Byte, real>,
                                           active: set<Note>, n: nat)
    requires sampleRate > 0.0 && n <= PITCHES
    ensures ReleaseSum(fns, sampleRate, clock, envelopes, active, {}, n) == 0.0
  {
    if n > 0 {
      ReleaseSumEmpty(fns, sampleRate, clock, envelopes, active, n - 1);
    }
  }

  /** Visiting one more pitch changes only that pitch's entry, as one pass of the release loop does. */
  lemma ReleaseOne(sampleRate: real, envelopes: map<Byte, real>, active: set<Note>, done: set<Byte>, pitch: Byte)
    requires sampleRate > 0.0 && pitch in envelopes && pitch !in done
    ensures var before := Partial(sampleRate, envelopes, active, done);
            pitch in before && before[pitch] == envelopes[pitch]
    ensures var before := Partial(sampleRate, envelopes, active, done);
            Partial(sampleRate, envelopes, active, done + {pitch})
            == if Note(pitch, 0) in active then before
               else if envelopes[pitch] > RELEASE_THRESHOLD then before[pitch := ReleaseStep(sampleRate, envelopes[pitch])]
               else before - {pitch}
  {
  }

  // ---------------------------------------------------------------------------
  // Properties of whole calls.

  /** The clock after `n` frames is the starting clock plus `n`, modulo 2^64. */
  lemma {:induction false} ClockWraps(fns: Transcendentals, sampleRate: real, order: seq<Note>, active: set<Note>,
                                      envelopes: map<Byte, real>, clock: nat, n: nat)
    requires sampleRate > 0.0 && clock < U64_MODULUS
    ensures Run(fns, sampleRate, order, active, envelopes, clock, n).clock == (clock + n) % U64_MODULUS
  {
    if n > 0 {
      ClockWraps(fns, sampleRate, order, active, envelopes, clock, n - 1);
      var prev := Run(fns, sampleRate, order, active, envelopes, clock, n - 1);
      assert Run(fns, sampleRate, order, active, envelopes, clock, n).clock
             == FrameStep(fns, sampleRate, order, active, prev.envelopes, prev.clock).clock;
      TickMod(clock + n - 1);
    }
  }

  /** Adding one after reducing modulo 2^64 is adding one, then reducing. */
  lemma TickMod(c: nat)
    ensures (c % U64_MODULUS + 1) % U64_MODULUS == (c + 1) % U64_MODULUS
  {
  }

  /** Every frame value lies in [-1, 1]. */
  lemma {:induction false} ValuesBounded(fns: Transcendentals, sampleRate: real, order: seq<Note>, active: set<Note>,
                                         envelopes: map<Byte, real>, clock: nat, n: nat)
    requires sampleRate > 0.0
    ensures forall k :: 0 <= k < n ==> -1.0 <= Run(fns, sampleRate, order, active, envelopes, clock, n).values[k] <= 1.0
  {
    if n > 0 {
      ValuesBounded(fns, sampleRate, order, active, envelopes, clock, n - 1);
      RunSnoc(fns, sampleRate, order, active, envelopes, clock, n);
    }
  }

  /** Levels stay in [0, 1] over any number of frames. */
  lemma {:induction false} RunLevels(fns: Transcendentals, sampleRate: real, order: seq<Note>, active: set<Note>,
                                     envelopes: map<Byte, real>, clock: nat, n: nat)
    requires sampleRate > 0.0 && Levels(envelopes)
    ensures Levels(Run(fns, sampleRate, order, active, envelopes, clock, n).envelopes)
  {
    if n > 0 {
      RunLevels(fns, sampleRate, order, active, envelopes, clock, n - 1);
      var prev := Run(fns, sampleRate, order, active, envelopes, clock, n - 1);
      AttackLevels(fns, sampleRate, prev.clock, order, prev.envelopes);
      ReleasedLevels(sampleRate, Attack(fns, sampleRate, prev.clock, order, prev.envelopes).1, active);
    }
  }

  /** Two calls one after the other: the values of both, and the state the second leaves. */
  function Then(first: RunOut, second: RunOut): RunOut
  {
    RunOut(first.values + second.values, second.envelopes, second.clock)
  }

  /**
   * The envelopes and the clock carry over between calls: a call of `n`
   * frames followed by a call of `m` frames plays what one run of `n + m`
   * frames plays, and ends in the same state.
   */
  lemma CallsCompose(fns: Transcendentals, sampleRate: real, order: seq<Note>, active: set<Note>,
                     envelopes: map<Byte, real>, clock: nat, n: nat, m: nat)
    requires sampleRate > 0.0
    ensures Run(fns, sampleRate, order, active, envelopes, clock, n + m)
            == Then(Run(fns, sampleRate, order, active, envelopes, clock, n),
                    Run(fns, sampleRate, order, active,
                        Run(fns, sampleRate, order, active, envelopes, clock, n).envelopes,
                        Run(fns, sampleRate, order, active, envelopes, clock, n).clock, m))
  {
    IterateCompose(Stepper(fns, sampleRate, order, active), envelopes, clock, n, m);
  }

  /** Iterating any step `n` times and then `m` times is iterating it `n + m` times. */
  lemma {:induction false} IterateCompose(step: (map<Byte, real>, nat) -> Step, envelopes: map<Byte, real>, clock: nat, n: nat, m: nat)
    ensures var first := Iterate(step, envelopes, clock, n);
            Iterate(step, envelopes, clock, n + m) == Then(first, Iterate(step, first.envelopes, first.clock, m))
  {
    var first := Iterate(step, envelopes, clock, n);
    if m == 0 {
      ThenNothing(first);
    } else {
      IterateCompose(step, envelopes, clock, n, m - 1);
      var whole := Iterate(step, envelopes, clock, n + (m - 1));
      var second := Iterate(step, first.envelopes, first.clock, m - 1);
      ThenExtend(first, second, whole, step(whole.envelopes, whole.clock), step(second.envelopes, second.clock));
    }
  }

  /** Following a run by a call of no frames leaves it as it was. */
  lemma ThenNothing(first: RunOut)
    ensures Then(first, RunOut([], first.envelopes, first.clock)) == first
  {
    assert first.values + [] == first.values;
  }

  /** Appending the same frame to two calls in a row and to the run they make gives the same result. */
  lemma ThenExtend(first: RunOut, second: RunOut, whole: RunOut, step: Step, step': Step)
    requires whole == Then(first, second) && step == step'
    ensures Extend(whole, step) == Then(first, Extend(second, step'))
  {
    assert first.values + (second.values + [step.value]) == (first.values + second.values) + [step.value];
  }

  /** One more frame appends one value and moves to the state `FrameStep` leaves. */
  lemma RunSnoc(fns: Transcendentals, sampleRate: real, order: seq<Note>, active: set<Note>,
                envelopes: map<Byte, real>, clock: nat, n: nat)
    requires sampleRate > 0.0 && n > 0
    ensures var prev := Run(fns, sampleRate, order, active, envelopes, clock, n - 1);
            Run(fns, sampleRate, order, active, envelopes, clock, n)
            == Extend(prev, FrameStep(fns, sampleRate, order, active, prev.envelopes, prev.clock))
  {
  }

  /** With no notes and no envelopes left, a frame is silent and leaves nothing behind. */
  lemma QuietWhenIdle(fns: Transcendentals, sampleRate: real, active: set<Note>, clock: nat)
    requires sampleRate > 0.0
    ensures FrameStep(fns, sampleRate, [], active, map[], clock) == Step(0.0, map[], (clock + 1) % U64_MODULUS)
  {
    var none: map<Byte, real> := map[];
    assert none.Keys == {};
    ReleaseSumEmpty(fns, sampleRate, clock, none, active, PITCHES);
    assert Released(sampleRate, none, active) == none;
  }

  // ---------------------------------------------------------------------------
  // The callback.

  /** Slot i of `data` holds frame i / 2's value, for every frame played so far. */
  ghost predicate Played(data: array<real>, values: seq<real>)
    reads data
  {
    forall i :: 0 <= i < data.Length && i / 2 < |values| ==> data[i] == values[i / 2]
  }

  /** The buffer holds the frames played so far, then what it held before the call. */
  ghost predicate Recorded(buffer: array<real>, before: seq<real>, values: seq<real>)
    reads buffer
  {
    && |before| == buffer.Length
    && forall i :: 0 <= i < buffer.Length ==> buffer[i] == if i < |values| then values[i] else before[i]
  }

  /** The attack loop for one frame, over the note set in iteration order. */
  method AttackLoop(fns: Transcendentals, sampleRate: real, clock: nat, order: seq<Note>, envelopes: map<Byte, real>)
    returns (sampleValue: real, levels: map<Byte, real>)
    requires sampleRate > 0.0
    ensures (sampleValue, levels) == Attack(fns, sampleRate, clock, order, envelopes)
  {
    sampleValue, levels := 0.0, envelopes;
    var i := 0;
    while i < |order|
      invariant 0 <= i <= |order|
      invariant (sampleValue, levels) == Attack(fns, sampleRate, clock, order[..i], envelopes)
    {
      Unsnoc(order, i);
      var pitch := order[i].pitch;
      var level := if pitch in levels then levels[pitch] else 0.0;
      if level < 1.0 {
        level := level + 1.0 / AttackTime(sampleRate);
        level := Clamp(level, 0.0, 1.0);
      }
      levels := levels[pitch := level];
      sampleValue := sampleValue + Voice(fns, sampleRate, clock, pitch, level);
      i := i + 1;
    }
    Whole(order);
  }

  /**
   * The release loop for one frame, over a snapshot of the map's keys in the
   * map's iteration order: whichever order the choice takes, the resulting map
   * and the sum are the same. It adds to the running frame value `start`.
   */
  method ReleaseLoop(fns: Transcendentals, sampleRate: real, clock: nat, envelopes: map<Byte, real>, active: set<Note>, start: real)
    returns (sampleValue: real, levels: map<Byte, real>)
    requires sampleRate > 0.0
    ensures levels == Released(sampleRate, envelopes, active)
    ensures sampleValue == start + ReleaseSum(fns, sampleRate, clock, envelopes, active, envelopes.Keys, PITCHES)
  {
    var keys := envelopes.Keys;
    ghost var done: set<Byte> := {};
    ReleaseSumEmpty(fns, sampleRate, clock, envelopes, active, PITCHES);
    sampleValue, levels := start, envelopes;
    while keys != {}
      invariant keys !! done && keys + done == envelopes.Keys
      invariant levels == Partial(sampleRate, envelopes, active, done)
      invariant sampleValue == start + ReleaseSum(fns, sampleRate, clock, envelopes, active, done, PITCHES)
      decreases keys
    {
      var pitch :| pitch in keys;
      ReleaseSumAdd(fns, sampleRate, clock, envelopes, active, done, pitch, PITCHES);
      ReleaseOne(sampleRate, envelopes, active, done, pitch);
      if Note(pitch, 0) !in active {
        var level := levels[pitch];
        if level > RELEASE_THRESHOLD {
          level := level - 1.0 / ReleaseTime(sampleRate);
          level := Clamp(level, 0.0, 1.0);
          levels := levels[pitch := level];
          sampleValue := sampleValue + Voice(fns, sampleRate, clock, pitch, level);
        } else {
          levels := levels - {pitch};
        }
      }
      keys := keys - {pitch};
      done := done + {pitch};
    }
    assert done == envelopes.Keys;
  }

  /**
   * What holds between frames once `k` frames of a call are done: the
   * envelopes and the clock are those `Run` reaches from the call's start,
   * `values` are the frames so far, and they have been written out.
   */
  ghost predicate Progress(cb: StreamCallback, order: seq<Note>, active: set<Note>, data: array<real>, buffer: array<real>,
                           before: seq<real>, envelopes: map<Byte, real>, clock: nat, k: nat, values: seq<real>, index: nat)
    reads cb, data, buffer
  {
    && cb.Valid()
    && data != buffer
    && var run := Run(cb.fns, cb.sampleRate, order, active, envelopes, clock, k);
    && values == run.values && cb.envelopes == run.envelopes && cb.sampleClock == run.clock
    && index == (if k < buffer.Length then k else buffer.Length)
    && Played(data, values) && Recorded(buffer, before, values)
  }

  /**
   * The end of the frame loop: the value goes to every slot of chunk `k`,
   * then to the buffer while there is room; slots past the write index keep
   * their old values.
   */
  method Publish(data: array<real>, buffer: array<real>, ghost before: seq<real>, ghost values: seq<real>,
                 k: nat, sampleValue: real, index: nat)
    returns (index': nat)
    requires data != buffer
    requires k == |values| && 2 * k < data.Length
    requires index == if |values| < buffer.Length then |values| else buffer.Length
    requires Played(data, values) && Recorded(buffer, before, values)
    modifies data, buffer
    ensures Played(data, values + [sampleValue]) && Recorded(buffer, before, values + [sampleValue])
    ensures index' == if |values| + 1 < buffer.Length then |values| + 1 else buffer.Length
  {
    FanOut(data, 2 * k, sampleValue);
    index' := index;
    if index' < buffer.Length {
      buffer[index'] := sampleValue;
      index' := index' + 1;
    }
  }

  /** Once every frame is played, every slot of `data` is accounted for. */
  lemma AllPlayed(data: array<real>, values: seq<real>)
    requires |values| == FrameCount(data.Length) && Played(data, values)
    ensures forall i :: 0 <= i < data.Length ==> data[i] == values[i / 2]
  {
  }

  /** The state of the audio thread's callback closure. */
  class StreamCallback {
    /** `sample_rate`, fixed when the stream is built. */
    const sampleRate: real
    /** `sin` and `2^x`. */
    const fns: Transcendentals
    /** `envelopes`: the level of every pitch still sounding. */
    var envelopes: map<Byte, real>
    /** `sample_clock`: a `u64`. */
    var sampleClock: nat

    ghost predicate Valid()
      reads this
    {
      sampleRate > 0.0 && sampleClock < U64_MODULUS && Levels(envelopes)
    }

    /** The captured state before the first call: no envelopes, clock 0. */
    constructor (sampleRate: real, fns: Transcendentals)
      requires sampleRate > 0.0
      ensures Valid()
      ensures this.sampleRate == sampleRate && this.fns == fns
      ensures envelopes == map[] && sampleClock == 0
    {
      this.sampleRate := sampleRate;
      this.fns := fns;
      envelopes := map[];
      sampleClock := 0;
    }

    /** Both note loops, the clamp and the clock tick: one frame's value and the state it leaves. */
    method RenderFrame(order: seq<Note>, active: set<Note>) returns (sampleValue: real)
      requires Valid()
      modifies this
      ensures Valid()
      ensures var step := FrameStep(fns, sampleRate, order, active, old(envelopes), old(sampleClock));
              sampleValue == step.value && envelopes == step.envelopes && sampleClock == step.clock
    {
      AttackLevels(fns, sampleRate, sampleClock, order, envelopes);
      var levels;
      sampleValue, levels := AttackLoop(fns, sampleRate, sampleClock, order, envelopes);
      ReleasedLevels(sampleRate, levels, active);
      sampleValue, levels := ReleaseLoop(fns, sampleRate, sampleClock, levels, active, sampleValue);
      envelopes := levels;
      sampleValue := Clamp(sampleValue, -1.0, 1.0);
      sampleClock := (sampleClock + 1) % U64_MODULUS;
    }

    /** One pass of the frame loop: render frame `k`, then write it out. */
    method Frame(order: seq<Note>, active: set<Note>, data: array<real>, buffer: array<real>,
                 ghost before: seq<real>, ghost envelopes0: map<Byte, real>, ghost clock0: nat,
                 k: nat, ghost values: seq<real>, index: nat)
      returns (ghost values': seq<real>, index': nat)
      requires 2 * k < data.Length
      requires Progress(this, order, active, data, buffer, before, envelopes0, clock0, k, values, index)
      modifies this, data, buffer
      ensures Progress(this, order, active, data, buffer, before, envelopes0, clock0, k + 1, values', index')
    {
      var sampleValue := RenderFrame(order, active);
      index' := Publish(data, buffer, before, values, k, sampleValue, index);
      values' := values + [sampleValue];
      RunSnoc(fns, sampleRate, order, active, envelopes0, clock0, k + 1);
    }

    /**
     * The callback: `order` is the iteration order of the locked note set and
     * `state.waveform` the locked visualization buffer. Every slot of chunk i
     * of `data` receives frame i's value; the buffer's first slots receive the
     * first frames' values and the rest keep what they held; the envelopes and
     * the clock move on to the state `Run` reaches.
     */
    method Invoke(data: array<real>, state: AppState, order: seq<Note>)
      requires Valid() && state.Valid() && IsEnumeration(order, state.activeNotes)
      requires data != state.waveform
      modifies this, data, state.waveform
      ensures Valid()
      ensures var run := Run(fns, sampleRate, order, state.activeNotes, old(envelopes), old(sampleClock), FrameCount(data.Length));
              && envelopes == run.envelopes && sampleClock == run.clock
              && (forall i :: 0 <= i < data.Length ==> data[i] == run.values[i / 2])
              && (forall i :: 0 <= i < state.waveform.Length ==>
                    state.waveform[i] == if i < |run.values| then run.values[i] else old(state.waveform[i]))
    {
      var buffer := state.waveform;
      var active := state.activeNotes;
      ghost var before := buffer[..];
      ghost var envelopes0 := envelopes;
      ghost var clock0 := sampleClock;
      ghost var values: seq<real> := [];
      var index := 0;
      var frames := FrameCount(data.Length);
      var k := 0;
      while k < frames
        invariant 0 <= k <= frames
        invariant Progress(this, order, active, data, buffer, before, envelopes0, clock0, k, values, index)
      {
        values, index := Frame(order, active, data, buffer, before, envelopes0, clock0, k, values, index);
        k := k + 1;
      }
      AllPlayed(data, values);
    }
  }

  /** The keyboard closure `main` registers: the same handler as the MIDI listener's. */
  method OnKeyboardMessage(state: AppState, message: seq<Byte>)
    requires state.Valid()
    modifies state
    ensures state.Valid()
    ensures state.activeNotes == Midi.Apply(old(state.activeNotes), Midi.Decode(message))
  {
    Midi.OnMessage(state, message);
  }
}
