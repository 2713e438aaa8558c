/**
 * `process_audio_data`: renders one output buffer from the active notes.
 *
 * Per frame: every active note advances its pitch's phase and adds a
 * velocity-scaled mix of square and sine; the dry sum goes through a
 * feedback delay line (the reverb ring), then a moving average over the
 * last four wet values, then a clamp to [-1, 1]. The value is written to
 * every slot of the frame's chunk and, while there is room, to the waveform
 * buffer, which is zero-filled first.
 *
 * The phase table, the reverb ring and the smoothing window are local to a
 * call: each call starts them afresh. The model splits a call in two: the
 * note mix, which turns the phase table of each frame into a dry value
 * (`Phases`, `Drys`), and the effect line, which turns the dry values into
 * output frames (`Effect`, `Chain`). `ProcessAudioData` is proved to write
 * exactly `Render`'s frames, and the lemmas say what those frames are.
 */
module Audio {
  import opened Dsp
  import opened State

  /** Length of the moving-average window. */
  const SMOOTHING_STEPS: nat := 4
  /** Length of the reverb ring, in frames. */
  const REVERB_DELAY: nat := 48000
  /** Weight of the delayed wet value fed back into the current frame. */
  const REVERB_DECAY: real := 0.5

  /** The unscaled waveform at `phase`: 0.7 of a square wave plus 0.3 of a sine. */
  function Shape(fns: Transcendentals, phase: real): (r: real)
    ensures Sane(fns) ==> -1.0 <= r <= 1.0
  {
    var square := if phase < 0.5 then 1.0 else -1.0;
    var sine := fns.sin(2.0 * PI * phase);
    assert Sane(fns) ==> -1.0 <= sine <= 1.0;
    0.7 * square + 0.3 * sine
  }

  /** One note's tone at `phase`: the waveform scaled by velocity / 127. */
  function Tone(fns: Transcendentals, phase: real, velocity: Byte): (r: real)
    ensures Sane(fns) ==> -(velocity as real / 127.0) <= r <= velocity as real / 127.0
  {
    Scale(Shape(fns, phase), velocity as real / 127.0)
  }

  /** One update of a phase accumulator: add frequency / sample rate and wrap with `% 1.0`. */
  function Advance(fns: Transcendentals, sampleRate: real, phase: real, pitch: Byte): (r: real)
    requires sampleRate > 0.0
    ensures Sane(fns) && 0.0 <= phase ==> 0.0 <= r < 1.0
  {
    RemOne(phase + NoteToFreq(fns, pitch) / sampleRate)
  }

  /** A pitch's accumulator after `k` updates starting from `phase`. */
  function Repeat(fns: Transcendentals, sampleRate: real, phase: real, pitch: Byte, k: nat): real
    requires sampleRate > 0.0
  {
    if k == 0 then phase else Advance(fns, sampleRate, Repeat(fns, sampleRate, phase, pitch, k - 1), pitch)
  }

  /** The accumulator `entry(pitch).or_insert(0.0)` reads. */
  function PhaseOf(phases: map<Byte, real>, pitch: Byte): real
  {
    if pitch in phases then phases[pitch] else 0.0
  }

  /**
   * The inner loop over the active notes, in iteration order: the dry sum and
   * the phase table afterwards. Each entry advances its pitch's accumulator
   * once, so a pitch present with two velocities is advanced twice.
   */
  function Mix(fns: Transcendentals, sampleRate: real, order: seq<Note>, phases: map<Byte, real>): (r: (real, map<Byte, real>))
    requires sampleRate > 0.0
    decreases |order|
  {
    if order == [] then (0.0, phases)
    else
      var prev := Mix(fns, sampleRate, order[..|order| - 1], phases);
      var n := order[|order| - 1];
      var phase := Advance(fns, sampleRate, PhaseOf(prev.1, n.pitch), n.pitch);
      (prev.0 + Tone(fns, phase, n.velocity), prev.1[n.pitch := phase])
  }

  /** `smoothing_buffer.iter().sum()`, added left to right. */
  function Sum(s: seq<real>): real
  {
    if s == [] then 0.0 else Sum(s[..|s| - 1]) + s[|s| - 1]
  }

  /** The phase table after `n` frames of a call; every call starts from an empty table. */
  function Phases(fns: Transcendentals, sampleRate: real, order: seq<Note>, n: nat): map<Byte, real>
    requires sampleRate > 0.0
  {
    if n == 0 then map[] else Mix(fns, sampleRate, order, Phases(fns, sampleRate, order, n - 1)).1
  }

  /** The dry values of a call's first `n` frames: the note mix at each frame's phases. */
  function Drys(fns: Transcendentals, sampleRate: real, order: seq<Note>, n: nat): (r: seq<real>)
    requires sampleRate > 0.0
    ensures |r| == n
  {
    if n == 0 then []
    else Drys(fns, sampleRate, order, n - 1) + [Mix(fns, sampleRate, order, Phases(fns, sampleRate, order, n - 1)).0]
  }

  /** The state of the effect line between frames. */
  datatype Effects = Effects(
    reverb: seq<real>,  // the reverb ring
    cursor: nat,        // `reverb_index`
    window: seq<real>)  // the smoothing window, oldest first

  ghost predicate WellFormed(e: Effects)
  {
    |e.reverb| == REVERB_DELAY && e.cursor < REVERB_DELAY && |e.window| == SMOOTHING_STEPS
  }

  /** What every call starts from: a silent ring at slot 0 and a zero window. */
  function Initial(): (e: Effects)
    ensures WellFormed(e)
  {
    Effects(Zeros(REVERB_DELAY), 0, Zeros(SMOOTHING_STEPS))
  }

  /** The values one frame produces: the dry mix, the reverb output and the final clamped sample. */
  datatype FrameOut = FrameOut(dry: real, wet: real, value: real)

  /** One frame of the effect line: reverb, smoothing, clamp. */
  function Effect(dry: real, e: Effects): (r: (FrameOut, Effects))
    requires WellFormed(e)
    ensures WellFormed(r.1)
    ensures -1.0 <= r.0.value <= 1.0
    ensures r.0.dry == dry
    ensures r.0.wet == dry + REVERB_DECAY * e.reverb[e.cursor]
    ensures r.1.reverb == e.reverb[e.cursor := r.0.wet]
    ensures r.1.cursor == (e.cursor + 1) % REVERB_DELAY
    ensures r.1.window == e.window[1..] + [r.0.wet]
  {
    var wet := dry + e.reverb[e.cursor] * REVERB_DECAY;
    var window := e.window[1..] + [wet];
    var value := Clamp(Sum(window) / SMOOTHING_STEPS as real, -1.0, 1.0);
    (FrameOut(dry, wet, value), Effects(e.reverb[e.cursor := wet], (e.cursor + 1) % REVERB_DELAY, window))
  }

  /** The effect line run over a call's dry values: the frames and the state after them. */
  function Chain(drys: seq<real>): (r: (seq<FrameOut>, Effects))
    ensures |r.0| == |drys| && WellFormed(r.1)
  {
    if drys == [] then ([], Initial())
    else
      var prev := Chain(drys[..|drys| - 1]);
      var step := Effect(drys[|drys| - 1], prev.1);
      (prev.0 + [step.0], step.1)
  }

  /** The first `n` frames of a call. */
  function Render(fns: Transcendentals, sampleRate: real, order: seq<Note>, n: nat): (r: seq<FrameOut>)
    requires sampleRate > 0.0
    ensures |r| == n
  {
    Chain(Drys(fns, sampleRate, order, n)).0
  }

  /** The wet value of frame `i`, or 0.0 for a frame before the call's start. */
  function WetAt(outs: seq<FrameOut>, i: int): real
  {
    if 0 <= i < |outs| then outs[i].wet else 0.0
  }

  // ---------------------------------------------------------------------------
  // The effect line.

  /** Running the line over more values never changes the frames already produced. */
  lemma {:induction false} ChainPrefix(drys: seq<real>, m: nat)
    requires m <= |drys|
    ensures Chain(drys[..m]).0 == Chain(drys).0[..m]
    decreases |drys|
  {
    if m < |drys| {
      var shorter := drys[..|drys| - 1];
      ChainPrefix(shorter, m);
      PrefixOfPrefix(drys, m, |drys| - 1);
      var prev := Chain(shorter);
      assert Chain(drys).0 == prev.0 + [Effect(drys[|drys| - 1], prev.1).0];
      assert (prev.0 + [Effect(drys[|drys| - 1], prev.1).0])[..m] == prev.0[..m];
    } else {
      assert drys[..m] == drys;
    }
  }

  /** Frame k of the line carries dry value k. */
  lemma {:induction false} ChainDry(drys: seq<real>, k: nat)
    requires k < |drys|
    ensures Chain(drys).0[k].dry == drys[k]
    decreases |drys|
  {
    if k < |drys| - 1 {
      ChainDry(drys[..|drys| - 1], k);
    }
  }

  /** Every frame value lies in [-1, 1]. */
  lemma {:induction false} ValuesBounded(drys: seq<real>)
    ensures forall k :: 0 <= k < |drys| ==> -1.0 <= Chain(drys).0[k].value <= 1.0
    decreases |drys|
  {
    if drys != [] {
      ValuesBounded(drys[..|drys| - 1]);
    }
  }

  /** The slot after slot `n mod D` is slot `n + 1 mod D`. */
  lemma SlotNext(n: nat)
    ensures (n % REVERB_DELAY + 1) % REVERB_DELAY == (n + 1) % REVERB_DELAY
  {
  }

  /** Frames `REVERB_DELAY` apart share a ring slot. */
  lemma SlotShift(k: int)
    requires k >= REVERB_DELAY
    ensures (k - REVERB_DELAY) % REVERB_DELAY == k % REVERB_DELAY
  {
  }

  /** Frames less than `REVERB_DELAY` apart use different ring slots. */
  lemma SlotsDiffer(i: int, k: int)
    requires 0 <= i < k < i + REVERB_DELAY
    ensures i % REVERB_DELAY != k % REVERB_DELAY
  {
  }

  /** The frames of a call's first `REVERB_DELAY` frames use the slot of their own number. */
  lemma SlotEarly(i: int)
    requires 0 <= i < REVERB_DELAY
    ensures i % REVERB_DELAY == i
  {
  }

  /** `reverb_index` is the frame count modulo the ring length. */
  lemma {:induction false} CursorAdvances(drys: seq<real>)
    ensures Chain(drys).1.cursor == |drys| % REVERB_DELAY
    decreases |drys|
  {
    if drys != [] {
      CursorAdvances(drys[..|drys| - 1]);
      SlotNext(|drys| - 1);
    }
  }

  /** Frame k is one effect step from the state the first k frames leave behind. */
  lemma FrameAt(drys: seq<real>, k: nat)
    requires k < |drys|
    ensures Chain(drys).0[k] == Effect(drys[k], Chain(drys[..k]).1).0
  {
    var upTo := drys[..k + 1];
    PrefixOfPrefix(drys, k, k + 1);
    ChainPrefix(drys, k + 1);
    ChainLast(upTo);
  }

  /** Dropping the element just appended gives back the sequence. */
  lemma DropLast<T>(s: seq<T>, x: T)
    ensures (s + [x])[..|s|] == s
  {
  }

  /** A prefix of a prefix is a prefix. */
  lemma PrefixOfPrefix<T>(s: seq<T>, m: nat, n: nat)
    requires m <= n <= |s|
    ensures s[..n][..m] == s[..m]
  {
  }

  /** The last frame of the line is one effect step from the state before it. */
  lemma ChainLast(s: seq<real>)
    requires s != []
    ensures Chain(s).0[|s| - 1] == Effect(s[|s| - 1], Chain(s[..|s| - 1]).1).0
  {
  }

  /**
   * After `n` frames the ring holds the last `REVERB_DELAY` wet values, each in
   * the slot of its frame number.
   */
  lemma {:induction false} RingHoldsRecent(drys: seq<real>)
    ensures var r := Chain(drys);
            forall i :: 0 <= i < |drys| <= i + REVERB_DELAY ==> r.1.reverb[i % REVERB_DELAY] == r.0[i].wet
    decreases |drys|
  {
    if drys != [] {
      var n := |drys|;
      var shorter := drys[..n - 1];
      var prev := Chain(shorter);
      var r := Chain(drys);
      RingHoldsRecent(shorter);
      CursorAdvances(shorter);
      var slot := (n - 1) % REVERB_DELAY;
      assert r.0 == prev.0 + [Effect(drys[n - 1], prev.1).0];
      assert r.1.reverb == prev.1.reverb[slot := r.0[n - 1].wet];
      forall i | 0 <= i < n <= i + REVERB_DELAY
        ensures r.1.reverb[i % REVERB_DELAY] == r.0[i].wet
      {
        if i < n - 1 {
          SlotsDiffer(i, n - 1);
        }
      }
    }
  }

  /** The slots the first `n` frames have not reached yet still hold 0.0. */
  lemma {:induction false} RingZerosAhead(drys: seq<real>)
    ensures forall j :: |drys| <= j < REVERB_DELAY ==> Chain(drys).1.reverb[j] == 0.0
    decreases |drys|
  {
    if drys != [] {
      var n := |drys|;
      var prev := Chain(drys[..n - 1]);
      RingZerosAhead(drys[..n - 1]);
      if n <= REVERB_DELAY {
        CursorAdvances(drys[..n - 1]);
        SlotEarly(n - 1);
        assert Chain(drys).1.reverb == prev.1.reverb[n - 1 := Effect(drys[n - 1], prev.1).0.wet];
      }
    }
  }

  /**
   * The reverb: a frame's wet value is its dry value plus half the wet value
   * of the frame `REVERB_DELAY` earlier, or plus nothing in a call's first
   * `REVERB_DELAY` frames.
   */
  lemma ReverbEcho(drys: seq<real>, k: nat)
    requires k < |drys|
    ensures var outs := Chain(drys).0;
            outs[k].wet == drys[k] + REVERB_DECAY * (if k >= REVERB_DELAY then outs[k - REVERB_DELAY].wet else 0.0)
  {
    FrameAt(drys, k);
    CursorAdvances(drys[..k]);
    if k >= REVERB_DELAY {
      EchoSlot(drys, k);
    } else {
      EmptySlot(drys, k);
    }
  }

  /** From frame `REVERB_DELAY` on, the slot frame k reads holds the wet value of frame k - `REVERB_DELAY`. */
  lemma EchoSlot(drys: seq<real>, k: nat)
    requires REVERB_DELAY <= k < |drys|
    ensures Chain(drys[..k]).1.reverb[k % REVERB_DELAY] == Chain(drys).0[k - REVERB_DELAY].wet
  {
    var before := Chain(drys[..k]);
    RingHoldsRecent(drys[..k]);
    SlotShift(k);
    ChainPrefix(drys, k);
    assert before.1.reverb[(k - REVERB_DELAY) % REVERB_DELAY] == before.0[k - REVERB_DELAY].wet;
  }

  /** In the first `REVERB_DELAY` frames, the slot frame k reads still holds 0.0. */
  lemma EmptySlot(drys: seq<real>, k: nat)
    requires k < REVERB_DELAY && k <= |drys|
    ensures Chain(drys[..k]).1.reverb[k % REVERB_DELAY] == 0.0
  {
    RingZerosAhead(drys[..k]);
    SlotEarly(k);
  }

  /** After `n` frames the smoothing window holds the last four wet values, zeros standing in before the call's start. */
  lemma {:induction false} WindowContents(drys: seq<real>)
    ensures var r := Chain(drys);
            var n := |drys|;
            r.1.window == [WetAt(r.0, n - 4), WetAt(r.0, n - 3), WetAt(r.0, n - 2), WetAt(r.0, n - 1)]
    decreases |drys|
  {
    if drys != [] {
      var n := |drys|;
      var prev := Chain(drys[..n - 1]);
      var step := Effect(drys[n - 1], prev.1);
      WindowContents(drys[..n - 1]);
      assert Chain(drys) == (prev.0 + [step.0], step.1);
      WetSnoc(prev.0, step.0, n - 4);
      WetSnoc(prev.0, step.0, n - 3);
      WetSnoc(prev.0, step.0, n - 2);
      PushOut(WetAt(prev.0, n - 5), WetAt(prev.0, n - 4), WetAt(prev.0, n - 3), WetAt(prev.0, n - 2), step.0.wet);
    }
  }

  /** Four values added left to right. */
  lemma SumOfFour(a: real, b: real, c: real, d: real)
    ensures Sum([a, b, c, d]) == a + b + c + d
  {
    assert [a][..0] == [];
    assert Sum([a]) == a;
    assert [a, b][..1] == [a];
    assert Sum([a, b]) == a + b;
    assert [a, b, c][..2] == [a, b];
    assert Sum([a, b, c]) == a + b + c;
    assert [a, b, c, d][..3] == [a, b, c];
  }

  /** A frame's value is the mean of the window it leaves behind, clamped. */
  lemma EffectValue(dry: real, e: Effects)
    requires WellFormed(e)
    ensures var r := Effect(dry, e);
            r.0.value == Clamp(Sum(r.1.window) / 4.0, -1.0, 1.0)
  {
  }

  /** The mean of frame `k`'s wet value and the three before it, zeros standing in before the call's start, clamped to [-1, 1]. */
  function MovingAverage(outs: seq<FrameOut>, k: int): real
  {
    Clamp((WetAt(outs, k - 3) + WetAt(outs, k - 2) + WetAt(outs, k - 1) + WetAt(outs, k)) / 4.0, -1.0, 1.0)
  }

  /**
   * The smoothing: a frame's value is the mean of its own wet value and the
   * three before it, zeros standing in before the call's start, clamped to [-1, 1].
   */
  lemma SmoothedValue(drys: seq<real>, k: nat)
    requires k < |drys|
    ensures Chain(drys).0[k].value == MovingAverage(Chain(drys).0, k)
  {
    var outs := Chain(drys).0;
    var before := Chain(drys[..k]);
    FrameAt(drys, k);
    WindowAfter(drys, k);
    SumOfFour(WetAt(outs, k - 3), WetAt(outs, k - 2), WetAt(outs, k - 1), WetAt(outs, k));
    EffectValue(drys[k], before.1);
  }

  /** The window frame k leaves behind holds the wet values of frames k - 3 to k. */
  lemma WindowAfter(drys: seq<real>, k: nat)
    requires k < |drys|
    ensures Effect(drys[k], Chain(drys[..k]).1).1.window
            == [WetAt(Chain(drys).0, k - 3), WetAt(Chain(drys).0, k - 2), WetAt(Chain(drys).0, k - 1), WetAt(Chain(drys).0, k)]
  {
    var outs := Chain(drys).0;
    var before := Chain(drys[..k]);
    var step := Effect(drys[k], before.1);
    FrameAt(drys, k);
    WindowContents(drys[..k]);
    ChainPrefix(drys, k);
    EarlierWets(before.0, outs, k - 3);
    EarlierWets(before.0, outs, k - 2);
    EarlierWets(before.0, outs, k - 1);
    PushOut(WetAt(before.0, k - 4), WetAt(before.0, k - 3), WetAt(before.0, k - 2), WetAt(before.0, k - 1), step.0.wet);
  }

  /** A frame before the end of a prefix has the same wet value in the prefix. */
  lemma EarlierWets(prefix: seq<FrameOut>, outs: seq<FrameOut>, i: int)
    requires |prefix| <= |outs| && prefix == outs[..|prefix|] && i < |prefix|
    ensures WetAt(prefix, i) == WetAt(outs, i)
  {
  }

  /** Appending a frame leaves the wet values of the earlier frames as they were. */
  lemma WetSnoc(outs: seq<FrameOut>, last: FrameOut, i: int)
    requires i < |outs|
    ensures WetAt(outs + [last], i) == WetAt(outs, i)
    ensures WetAt(outs + [last], |outs|) == last.wet
  {
  }

  /** Pushing a value into a full window of four drops the oldest. */
  lemma PushOut(a: real, b: real, c: real, d: real, e: real)
    ensures [a, b, c, d][1..] + [e] == [b, c, d, e]
  {
  }

  /** `n` zero samples. */
  function Zeros(n: nat): (s: seq<real>)
    ensures |s| == n && forall i :: 0 <= i < n ==> s[i] == 0.0
  {
    seq(n, _ => 0.0)
  }

  /** The effect state after `n` silent frames: a zero ring and window at cursor `n` mod the ring length. */
  function Silent(n: nat): (e: Effects)
    ensures WellFormed(e)
  {
    Effects(Zeros(REVERB_DELAY), n % REVERB_DELAY, Zeros(SMOOTHING_STEPS))
  }

  /** One silent frame from a silent state: a zero frame, and the state stays silent. */
  lemma SilentStep(n: nat)
    ensures Effect(0.0, Silent(n)) == (FrameOut(0.0, 0.0, 0.0), Silent(n + 1))
  {
    var e := Silent(n);
    assert e.reverb[e.cursor := 0.0] == e.reverb;
    assert e.window[1..] + [0.0] == e.window;
    assert e.window == [0.0, 0.0, 0.0, 0.0];
    SumOfFour(0.0, 0.0, 0.0, 0.0);
    SlotNext(n);
  }

  /** The first `n - 1` of `n` zeros. */
  lemma ZerosPrefix(n: nat)
    requires n > 0
    ensures Zeros(n)[..n - 1] == Zeros(n - 1)
  {
  }

  /** After `n` silent frames the effect line is in the silent state `Silent(n)`. */
  lemma {:induction false} SilenceKeepsState(n: nat)
    ensures Chain(Zeros(n)).1 == Silent(n)
  {
    if n > 0 {
      ZerosPrefix(n);
      SilenceKeepsState(n - 1);
      SilentStep(n - 1);
    }
  }

  /** Silence in gives silence out: every frame of an all-zero dry signal is exactly 0.0. */
  lemma {:induction false} SilenceStaysSilent(n: nat)
    ensures forall k :: 0 <= k < n ==> Chain(Zeros(n)).0[k] == FrameOut(0.0, 0.0, 0.0)
  {
    if n > 0 {
      ZerosPrefix(n);
      SilenceStaysSilent(n - 1);
      SilenceKeepsState(n - 1);
      SilentStep(n - 1);
      assert Chain(Zeros(n)).0 == Chain(Zeros(n - 1)).0 + [FrameOut(0.0, 0.0, 0.0)];
    }
  }

  // ---------------------------------------------------------------------------
  // The note mix.

  /** Splitting a run of updates: `a` updates followed by `b` more are `a + b` updates. */
  lemma {:induction false} RepeatAdd(fns: Transcendentals, sampleRate: real, phase: real, pitch: Byte, a: nat, b: nat)
    requires sampleRate > 0.0
    ensures Repeat(fns, sampleRate, Repeat(fns, sampleRate, phase, pitch, a), pitch, b)
            == Repeat(fns, sampleRate, phase, pitch, a + b)
  {
    if b > 0 {
      RepeatAdd(fns, sampleRate, phase, pitch, a, b - 1);
    }
  }

  /** One frame's note loop advances a pitch's accumulator once per entry of that pitch. */
  lemma {:induction false} MixAdvances(fns: Transcendentals, sampleRate: real, order: seq<Note>, phases: map<Byte, real>, pitch: Byte)
    requires sampleRate > 0.0
    ensures PhaseOf(Mix(fns, sampleRate, order, phases).1, pitch)
            == Repeat(fns, sampleRate, PhaseOf(phases, pitch), pitch, Occurrences(order, pitch))
    decreases |order|
  {
    if order != [] {
      MixAdvances(fns, sampleRate, order[..|order| - 1], phases, pitch);
    }
  }

  /** After one frame's note loop a pitch has an accumulator iff it had one before or the set holds it. */
  lemma {:induction false} MixKeys(fns: Transcendentals, sampleRate: real, order: seq<Note>, phases: map<Byte, real>, pitch: Byte)
    requires sampleRate > 0.0
    ensures (pitch in Mix(fns, sampleRate, order, phases).1) <==> (pitch in phases || Occurrences(order, pitch) > 0)
    decreases |order|
  {
    if order != [] {
      MixKeys(fns, sampleRate, order[..|order| - 1], phases, pitch);
    }
  }

  /**
   * Phases restart in every call: after `n` frames, a pitch held at `c`
   * velocities has been advanced `n * c` times from 0.0.
   */
  lemma {:induction false} PhaseRestartsEachCall(fns: Transcendentals, sampleRate: real, order: seq<Note>, n: nat, pitch: Byte)
    requires sampleRate > 0.0
    ensures PhaseOf(Phases(fns, sampleRate, order, n), pitch)
            == Repeat(fns, sampleRate, 0.0, pitch, n * Occurrences(order, pitch))
  {
    if n > 0 {
      var c := Occurrences(order, pitch);
      PhaseRestartsEachCall(fns, sampleRate, order, n - 1, pitch);
      PhasesStep(fns, sampleRate, order, n, pitch);
      MulStep(n, c);
      var done := (n - 1) * c;
      RepeatAdd(fns, sampleRate, 0.0, pitch, done, c);
      assert done + c == n * c;
    }
  }

  /** Each frame advances a pitch's accumulator once per entry of that pitch. */
  lemma PhasesStep(fns: Transcendentals, sampleRate: real, order: seq<Note>, n: nat, pitch: Byte)
    requires sampleRate > 0.0 && n > 0
    ensures PhaseOf(Phases(fns, sampleRate, order, n), pitch)
            == Repeat(fns, sampleRate, PhaseOf(Phases(fns, sampleRate, order, n - 1), pitch), pitch, Occurrences(order, pitch))
  {
    MixAdvances(fns, sampleRate, order, Phases(fns, sampleRate, order, n - 1), pitch);
  }

  /** `n - 1` groups of `c` and one more make `n` groups. */
  lemma MulStep(n: nat, c: nat)
    requires n > 0
    ensures 0 <= (n - 1) * c && (n - 1) * c + c == n * c
  {
  }

  /** Under the assumed bounds, updates from a phase in [0, 1) stay in [0, 1). */
  lemma {:induction false} RepeatInUnit(fns: Transcendentals, sampleRate: real, phase: real, pitch: Byte, k: nat)
    requires sampleRate > 0.0 && Sane(fns) && 0.0 <= phase < 1.0
    ensures 0.0 <= Repeat(fns, sampleRate, phase, pitch, k) < 1.0
  {
    if k > 0 {
      RepeatInUnit(fns, sampleRate, phase, pitch, k - 1);
    }
  }

  /** Only pitches of the note set get an accumulator, and only once a frame has run. */
  lemma {:induction false} PhaseKeys(fns: Transcendentals, sampleRate: real, order: seq<Note>, n: nat, pitch: Byte)
    requires sampleRate > 0.0
    ensures pitch in Phases(fns, sampleRate, order, n) <==> n > 0 && Occurrences(order, pitch) > 0
  {
    if n > 0 {
      PhaseKeys(fns, sampleRate, order, n - 1, pitch);
      MixKeys(fns, sampleRate, order, Phases(fns, sampleRate, order, n - 1), pitch);
    }
  }

  /** Every accumulator lies in [0, 1) and belongs to a held pitch, under the assumed bounds of sin and 2^x. */
  lemma PhasesInUnit(fns: Transcendentals, sampleRate: real, order: seq<Note>, n: nat, pitch: Byte)
    requires sampleRate > 0.0 && Sane(fns)
    requires pitch in Phases(fns, sampleRate, order, n)
    ensures Occurrences(order, pitch) > 0
    ensures 0.0 <= Phases(fns, sampleRate, order, n)[pitch] < 1.0
  {
    PhaseRestartsEachCall(fns, sampleRate, order, n, pitch);
    RepeatInUnit(fns, sampleRate, 0.0, pitch, n * Occurrences(order, pitch));
    PhaseKeys(fns, sampleRate, order, n, pitch);
  }

  /** Frame k's dry value is the note mix at the phases `k` frames into the call. */
  lemma {:induction false} DryIsMix(fns: Transcendentals, sampleRate: real, order: seq<Note>, n: nat, k: nat)
    requires sampleRate > 0.0 && k < n
    ensures Render(fns, sampleRate, order, n)[k].dry == Mix(fns, sampleRate, order, Phases(fns, sampleRate, order, k)).0
  {
    DrysPrefix(fns, sampleRate, order, k + 1, n);
    ChainDry(Drys(fns, sampleRate, order, n), k);
  }

  /** The dry values of the first `m` frames do not depend on how many frames follow. */
  lemma {:induction false} DrysPrefix(fns: Transcendentals, sampleRate: real, order: seq<Note>, m: nat, n: nat)
    requires sampleRate > 0.0 && m <= n
    ensures Drys(fns, sampleRate, order, m) == Drys(fns, sampleRate, order, n)[..m]
    decreases n
  {
    if m < n {
      DrysPrefix(fns, sampleRate, order, m, n - 1);
      DropLast(Drys(fns, sampleRate, order, n - 1), Mix(fns, sampleRate, order, Phases(fns, sampleRate, order, n - 1)).0);
      PrefixOfPrefix(Drys(fns, sampleRate, order, n), m, n - 1);
    }
  }

  /** With no active notes every frame is silent: dry, wet and output are all exactly 0.0. */
  lemma {:induction false} SilentWithoutNotes(fns: Transcendentals, sampleRate: real, n: nat)
    requires sampleRate > 0.0
    ensures forall k :: 0 <= k < n ==> Render(fns, sampleRate, [], n)[k] == FrameOut(0.0, 0.0, 0.0)
  {
    DrysSilent(fns, sampleRate, n);
    SilenceStaysSilent(n);
  }

  /** With no active notes every dry value is 0.0. */
  lemma {:induction false} DrysSilent(fns: Transcendentals, sampleRate: real, n: nat)
    requires sampleRate > 0.0
    ensures Drys(fns, sampleRate, [], n) == Zeros(n)
  {
    if n > 0 {
      DrysSilent(fns, sampleRate, n - 1);
    }
  }

  // ---------------------------------------------------------------------------
  // The callback itself.

  /** `slice.rotate_left(1)`. */
  method RotateLeft(a: array<real>)
    requires a.Length > 0
    modifies a
    ensures a[..] == old(a[1..]) + [old(a[0])]
  {
    var first := a[0];
    var i := 0;
    while i < a.Length - 1
      invariant 0 <= i <= a.Length - 1
      invariant forall j :: 0 <= j < i ==> a[j] == old(a[j + 1])
      invariant forall j :: i <= j < a.Length ==> a[j] == old(a[j])
    {
      a[i] := a[i + 1];
      i := i + 1;
    }
    a[a.Length - 1] := first;
  }

  /** The loop over the active notes for one frame. */
  method MixNotes(fns: Transcendentals, sampleRate: real, order: seq<Note>, phases: map<Byte, real>)
    returns (sampleValue: real, advanced: map<Byte, real>)
    requires sampleRate > 0.0
    ensures (sampleValue, advanced) == Mix(fns, sampleRate, order, phases)
  {
    sampleValue, advanced := 0.0, phases;
    var i := 0;
    while i < |order|
      invariant 0 <= i <= |order|
      invariant (sampleValue, advanced) == Mix(fns, sampleRate, order[..i], phases)
    {
      assert order[..i + 1][..i] == order[..i];
      var n := order[i];
      var phase := if n.pitch in advanced then advanced[n.pitch] else 0.0;
      phase := Advance(fns, sampleRate, phase, n.pitch);
      advanced := advanced[n.pitch := phase];
      sampleValue := sampleValue + Tone(fns, phase, n.velocity);
      i := i + 1;
    }
    assert order[..i] == order;
  }

  /** The ring, its cursor and the smoothing window of a call hold exactly the state `fx`. */
  ghost predicate Mirrors(fx: Effects, reverb: array<real>, cursor: nat, smoothing: array<real>)
    reads reverb, smoothing
  {
    fx == Effects(reverb[..], cursor, smoothing[..])
  }

  /**
   * One frame of the loop up to the fan-out: mix the notes, pass the dry value
   * through the reverb ring, push the wet value into the smoothing window,
   * average and clamp it.
   */
  method RenderFrame(fns: Transcendentals, sampleRate: real, order: seq<Note>, phases: map<Byte, real>,
                     reverb: array<real>, reverbIndex: nat, smoothing: array<real>, ghost fx: Effects)
    returns (out: FrameOut, advanced: map<Byte, real>, nextIndex: nat)
    requires sampleRate > 0.0
    requires reverb.Length == REVERB_DELAY && reverbIndex < REVERB_DELAY
    requires smoothing.Length == SMOOTHING_STEPS && reverb != smoothing
    requires Mirrors(fx, reverb, reverbIndex, smoothing)
    modifies reverb, smoothing
    ensures WellFormed(fx)
    ensures advanced == Mix(fns, sampleRate, order, phases).1
    ensures out == Effect(Mix(fns, sampleRate, order, phases).0, fx).0
    ensures Mirrors(Effect(Mix(fns, sampleRate, order, phases).0, fx).1, reverb, nextIndex, smoothing)
  {
    var sampleValue;
    sampleValue, advanced := MixNotes(fns, sampleRate, order, phases);
    var dry := sampleValue;

    var reverbSample := reverb[reverbIndex];
    var wetSample := sampleValue + reverbSample * REVERB_DECAY;
    reverb[reverbIndex] := wetSample;
    nextIndex := (reverbIndex + 1) % REVERB_DELAY;
    sampleValue := wetSample;
    ghost var ring := reverb[..];
    assert ring == fx.reverb[fx.cursor := wetSample];

    RotateLeft(smoothing);
    smoothing[SMOOTHING_STEPS - 1] := sampleValue;
    assert smoothing[..] == fx.window[1..] + [wetSample];
    sampleValue := Sum(smoothing[..]) / SMOOTHING_STEPS as real;

    sampleValue := Clamp(sampleValue, -1.0, 1.0);
    out := FrameOut(dry, wetSample, sampleValue);
    assert reverb[..] == ring;
  }

  /** Slot i of `data` holds frame i / 2's value, for every frame rendered so far. */
  ghost predicate Played(data: array<real>, outs: seq<FrameOut>)
    reads data
  {
    forall i :: 0 <= i < data.Length && i / 2 < |outs| ==> data[i] == outs[i / 2].value
  }

  /** The waveform buffer holds the frames rendered so far, then zeros. */
  ghost predicate Shown(waveform: array<real>, outs: seq<FrameOut>)
    reads waveform
  {
    forall i :: 0 <= i < waveform.Length ==> waveform[i] == if i < |outs| then outs[i].value else 0.0
  }

  /** The end of the frame loop: fan the value out to the chunk, then publish it while there is room. */
  method Publish(data: array<real>, waveform: array<real>, ghost outs: seq<FrameOut>, k: nat, out: FrameOut, bufferIndex: nat)
    returns (nextIndex: nat)
    requires data != waveform
    requires k == |outs| && 2 * k < data.Length
    requires bufferIndex == if |outs| < waveform.Length then |outs| else waveform.Length
    requires Played(data, outs) && Shown(waveform, outs)
    modifies data, waveform
    ensures Played(data, outs + [out]) && Shown(waveform, outs + [out])
    ensures nextIndex == if |outs| + 1 < waveform.Length then |outs| + 1 else waveform.Length
  {
    FanOut(data, 2 * k, out.value);
    nextIndex := bufferIndex;
    if nextIndex < waveform.Length {
      waveform[nextIndex] := out.value;
      nextIndex := nextIndex + 1;
    }
  }

  /**
   * What holds between frames once `k` frames are done: the phase table, the
   * ring and the window hold the state a call reaches, `outs` are the frames
   * so far, and they have been written out.
   */
  ghost predicate Progress(fns: Transcendentals, sampleRate: real, order: seq<Note>, data: array<real>, waveform: array<real>,
                           k: nat, outs: seq<FrameOut>, phases: map<Byte, real>,
                           reverb: array<real>, cursor: nat, smoothing: array<real>, bufferIndex: nat)
    reads data, waveform, reverb, smoothing
  {
    && sampleRate > 0.0
    && data != waveform
    && reverb != smoothing && reverb.Length == REVERB_DELAY && smoothing.Length == SMOOTHING_STEPS
    && {reverb, smoothing} !! {data, waveform}
    && phases == Phases(fns, sampleRate, order, k)
    && outs == Chain(Drys(fns, sampleRate, order, k)).0
    && Mirrors(Chain(Drys(fns, sampleRate, order, k)).1, reverb, cursor, smoothing)
    && bufferIndex == (if k < waveform.Length then k else waveform.Length)
    && Played(data, outs) && Shown(waveform, outs)
  }

  /** The effect line one value further: the frames so far and one more `Effect`. */
  lemma ChainSnoc(drys: seq<real>, dry: real)
    ensures var prev := Chain(drys);
            Chain(drys + [dry]) == (prev.0 + [Effect(dry, prev.1).0], Effect(dry, prev.1).1)
  {
    assert (drys + [dry])[..|drys|] == drys;
  }

  /** One pass of the frame loop: render frame `k`, then write it out. */
  method Frame(fns: Transcendentals, sampleRate: real, order: seq<Note>, data: array<real>, waveform: array<real>,
               k: nat, ghost outs: seq<FrameOut>, phases: map<Byte, real>,
               reverb: array<real>, reverbIndex: nat, smoothing: array<real>, bufferIndex: nat)
    returns (ghost outs': seq<FrameOut>, phases': map<Byte, real>, reverbIndex': nat, bufferIndex': nat)
    requires 2 * k < data.Length
    requires Progress(fns, sampleRate, order, data, waveform, k, outs, phases, reverb, reverbIndex, smoothing, bufferIndex)
    modifies data, waveform, reverb, smoothing
    ensures Progress(fns, sampleRate, order, data, waveform, k + 1, outs', phases', reverb, reverbIndex', smoothing, bufferIndex')
  {
    ghost var drys := Drys(fns, sampleRate, order, k);
    var out;
    out, phases', reverbIndex' := RenderFrame(fns, sampleRate, order, phases, reverb, reverbIndex, smoothing, Chain(drys).1);
    ChainSnoc(drys, Mix(fns, sampleRate, order, phases).0);
    bufferIndex' := Publish(data, waveform, outs, k, out, bufferIndex);
    outs' := outs + [out];
  }

  /** Once every frame is rendered, every slot of the output and of the waveform buffer is accounted for. */
  lemma AllPublished(data: array<real>, waveform: array<real>, outs: seq<FrameOut>)
    requires |outs| == FrameCount(data.Length)
    requires Played(data, outs) && Shown(waveform, outs)
    ensures forall i :: 0 <= i < data.Length ==> data[i] == outs[i / 2].value
    ensures forall i :: 0 <= i < waveform.Length ==> waveform[i] == if i < |outs| then outs[i].value else 0.0
  {
  }

  /** The frame loop over `data.chunks_mut(2)`, with the effect state the call allocates. */
  method RenderFrames(fns: Transcendentals, sampleRate: real, order: seq<Note>, data: array<real>, waveform: array<real>)
    returns (ghost outs: seq<FrameOut>)
    requires sampleRate > 0.0 && data != waveform
    requires Shown(waveform, [])
    modifies data, waveform
    ensures outs == Render(fns, sampleRate, order, FrameCount(data.Length))
    ensures Played(data, outs) && Shown(waveform, outs)
  {
    var phases: map<Byte, real> := map[];
    var smoothing := new real[SMOOTHING_STEPS](_ => 0.0);
    var bufferIndex: nat := 0;

    var reverb := new real[REVERB_DELAY](_ => 0.0);
    var reverbIndex: nat := 0;

    outs := [];
    assert reverb[..] == Initial().reverb && smoothing[..] == Initial().window;
    assert Drys(fns, sampleRate, order, 0) == [];
    var frames := FrameCount(data.Length);
    var k := 0;
    while k < frames
      invariant 0 <= k <= frames
      invariant fresh(reverb) && fresh(smoothing)
      invariant Progress(fns, sampleRate, order, data, waveform, k, outs, phases, reverb, reverbIndex, smoothing, bufferIndex)
    {
      outs, phases, reverbIndex, bufferIndex := Frame(fns, sampleRate, order, data, waveform, k, outs, phases,
                                                      reverb, reverbIndex, smoothing, bufferIndex);
      k := k + 1;
    }
  }

  /**
   * `process_audio_data`: `order` is the iteration order of the locked note
   * set. Every slot of chunk i of `data` receives frame i's value; the
   * waveform buffer holds the first frames' values and zeros after them.
   */
  method ProcessAudioData(data: array<real>, state: AppState, sampleRate: real, order: seq<Note>, fns: Transcendentals)
    requires sampleRate > 0.0
    requires IsEnumeration(order, state.activeNotes)
    requires data != state.waveform
    modifies data, state.waveform
    ensures var outs := Render(fns, sampleRate, order, FrameCount(data.Length));
            && (forall i :: 0 <= i < data.Length ==> data[i] == outs[i / 2].value)
            && (forall i :: 0 <= i < state.waveform.Length ==>
                  state.waveform[i] == if i < |outs| then outs[i].value else 0.0)
  {
    var waveform := state.waveform;
    forall i | 0 <= i < waveform.Length {
      waveform[i] := 0.0;
    }
    ghost var outs := RenderFrames(fns, sampleRate, order, data, waveform);
    AllPublished(data, waveform, outs);
  }
}
