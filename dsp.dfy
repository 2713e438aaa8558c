/**
 * Numeric building blocks shared by both synthesizer callbacks: the clamp and
 * remainder operations of Rust's `f32`, pitch-to-frequency conversion, and the
 * stereo fan-out of one frame value into its chunk of the output slice.
 *
 * Sample values are `real`. The transcendental functions the source calls
 * (`f32::sin`, `f32::powf` with base 2) are not defined here: they are handed
 * in as a `Transcendentals` value, and only the bounds a proof needs are
 * assumed of them, through `Sane`.
 */
module Dsp {

  /** The value of pi the oscillators use (`std::f32::consts::PI`, before rounding). */
  const PI: real := 3.14159265358979323846

  /** The two library functions the source calls: `sin` and `2^x` (`2.0_f32.powf(x)`). */
  datatype Transcendentals = Transcendentals(sin: real -> real, pow2: real -> real)

  /** What is assumed of the library functions: |sin x| <= 1 and 2^x > 0. */
  ghost predicate Sane(fns: Transcendentals)
  {
    && (forall x :: -1.0 <= fns.sin(x) <= 1.0)
    && (forall x :: fns.pow2(x) > 0.0)
  }

  /** `f32::clamp(x, lo, hi)`: `lo` below the range, `hi` above it, `x` inside it. */
  function Clamp(x: real, lo: real, hi: real): (r: real)
    requires lo <= hi
    ensures lo <= r <= hi
    ensures lo <= x <= hi ==> r == x
    ensures x < lo ==> r == lo
    ensures hi < x ==> r == hi
  {
    if x < lo then lo else if x > hi then hi else x
  }

  /** A factor in [-1, 1] scales a non-negative volume to within [-volume, volume]. */
  lemma ScaledWithin(m: real, v: real)
    requires -1.0 <= m <= 1.0 && 0.0 <= v
    ensures -v <= m * v <= v
  {
    assert (1.0 - m) * v >= 0.0;
    assert (1.0 + m) * v >= 0.0;
  }

  /** `m * v`: a factor in [-1, 1] keeps a non-negative volume within [-v, v]. */
  function Scale(m: real, v: real): (r: real)
    ensures -1.0 <= m <= 1.0 && 0.0 <= v ==> -v <= r <= v
  {
    if -1.0 <= m <= 1.0 && 0.0 <= v then ScaledWithin(m, v); m * v else m * v
  }

  /** Rounding toward zero, as Rust's float remainder uses it. */
  function Trunc(x: real): (n: int)
    ensures 0.0 <= x ==> n as real <= x < n as real + 1.0
    ensures x < 0.0 ==> n as real - 1.0 < x <= n as real
  {
    if x >= 0.0 then x.Floor else -((-x).Floor)
  }

  /**
   * Rust's `x % 1.0` on floats: the remainder keeps the sign of `x`, so a
   * non-negative phase wraps into [0, 1) and differs from `x` by a whole number.
   */
  function RemOne(x: real): (r: real)
    ensures 0.0 <= x ==> 0.0 <= r < 1.0
    ensures x < 0.0 ==> -1.0 < r <= 0.0
    ensures (x - r).Floor as real == x - r
    ensures 0.0 <= x < 1.0 ==> r == x
  {
    x - Trunc(x) as real
  }

  /** `midi_note_to_freq`: 440 Hz times 2^((note - 69) / 12). */
  function NoteToFreq(fns: Transcendentals, note: int): real
  {
    440.0 * fns.pow2((note as real - 69.0) / 12.0)
  }

  /** Under the assumed bounds every note has a positive frequency. */
  lemma NoteToFreqPositive(fns: Transcendentals, note: int)
    requires Sane(fns)
    ensures NoteToFreq(fns, note) > 0.0
  {
  }

  /** Note 69 (A4) sounds at 440 Hz whenever 2^0 is 1. */
  lemma ConcertPitch(fns: Transcendentals)
    requires fns.pow2(0.0) == 1.0
    ensures NoteToFreq(fns, 69) == 440.0
  {
  }

  /** A higher note has a higher frequency whenever 2^x is increasing. */
  lemma NoteToFreqMonotonic(fns: Transcendentals, lower: int, higher: int)
    requires forall x, y :: x < y ==> fns.pow2(x) < fns.pow2(y)
    requires lower < higher
    ensures NoteToFreq(fns, lower) < NoteToFreq(fns, higher)
  {
    var x := (lower as real - 69.0) / 12.0;
    var y := (higher as real - 69.0) / 12.0;
    assert x < y;
    assert fns.pow2(x) < fns.pow2(y);
  }

  /** The number of chunks `slice.chunks_mut(2)` yields: the last one may hold a single slot. */
  function FrameCount(len: nat): (n: nat)
    ensures 2 * n == len || 2 * n == len + 1
  {
    (len + 1) / 2
  }

  /**
   * Writes `value` into every slot of the chunk that starts at `start`
   * (`for sample in frame.iter_mut()`): two slots, or one at the end of an
   * odd-length slice. Nothing outside the chunk changes.
   */
  method FanOut(data: array<real>, start: nat, value: real)
    requires start < data.Length
    modifies data
    ensures forall i :: 0 <= i < data.Length ==>
              data[i] == if start <= i < start + 2 then value else old(data[i])
  {
    var end := if start + 2 <= data.Length then start + 2 else data.Length;
    var j := start;
    while j < end
      invariant start <= j <= end
      invariant forall i :: 0 <= i < data.Length ==>
                  data[i] == if start <= i < j then value else old(data[i])
    {
      data[j] := value;
      j := j + 1;
    }
  }
}
