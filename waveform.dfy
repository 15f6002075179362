/**
  The tempo-to-waveform conversion of the metronome: `createTempoVibrationWaveform`
  turns a beat interval (milliseconds) into a two-step on/off vibration pattern that
  the vibrator repeats from its first step until it is cancelled.

  The source computes the on-pulse in floating point:
  `min(150.0, beatInterval.toFloat() * 0.5).toLong()`. Every integer of magnitude at
  most 2^24 is exact as a 32-bit float, and halving is exact, so on that range the
  float computation equals the same computation over the reals; for positive
  intervals above 2^24 both give 150. The model therefore computes over `real`, with
  Kotlin's `toLong()` truncation toward zero written out.
*/
module Waveform {

  /** Longest on-pulse, in milliseconds. */
  const MaxPulseMs: int := 150
  /** Amplitude of the on step and of the off step. */
  const OnAmplitude: int := 255
  const OffAmplitude: int := 0
  /** Index the waveform repeats from: 0 means "loop from the first step". */
  const RepeatFromStart: int := 0

  /** Bounds of Kotlin's `Long`. */
  const LongMin: int := -0x8000_0000_0000_0000
  const LongMax: int := 0x7fff_ffff_ffff_ffff
  /** Below -2^24 the conversion to float can round, and the model stops being exact. */
  const FloatExactMin: int := -0x100_0000

  /** The arguments handed to the platform's waveform constructor. */
  datatype VibrationWaveform = VibrationWaveform(timings: seq<int>, amplitudes: seq<int>, repeat: int)

  /** The beat intervals on which the model is exact: a `Long` not below -2^24. */
  predicate ModelledInterval(beatInterval: int)
  {
    FloatExactMin <= beatInterval <= LongMax
  }

  function MinReal(a: real, b: real): (m: real)
  {
    if a <= b then a else b
  }

  /** Kotlin's `Double.toLong()` on a value in range: truncation toward zero. */
  function TruncateToLong(x: real): (n: int)
  {
    if x >= 0.0 then x.Floor else -((-x).Floor)
  }

  /** The on-pulse duration, as line 114 computes it. */
  function BeatVibrateDuration(beatInterval: int): (d: int)
    requires ModelledInterval(beatInterval)
    ensures d <= MaxPulseMs
    ensures beatInterval >= 0 ==> 0 <= d && 2 * d <= beatInterval
    ensures beatInterval < 0 ==> beatInterval <= 2 * d <= 0
  {
    TruncateToLong(MinReal(150.0, beatInterval as real * 0.5))
  }

  /** Integer division truncating toward zero (Kotlin's `/`), for halving. */
  function HalfTowardZero(x: int): (h: int)
  {
    if x >= 0 then x / 2 else -((-x) / 2)
  }

  /**
    The on-pulse in integer terms: half the interval truncated toward zero, capped
    at 150 ms. Nothing clamps a negative interval: it gives a non-positive on-pulse
  (0 for an interval of -1) and a negative off-pulse.
  */
  lemma BeatVibrateDurationValue(beatInterval: int)
    requires ModelledInterval(beatInterval)
    ensures BeatVibrateDuration(beatInterval) ==
      if beatInterval >= 300 then MaxPulseMs else HalfTowardZero(beatInterval)
  {
  }

  /**
    The waveform for a beat interval: on for the capped half interval, off for the
    rest, amplitudes 255 then 0, repeating from step 0.
  */
  function WaveformForInterval(beatInterval: int): (w: VibrationWaveform)
    requires ModelledInterval(beatInterval)
    ensures |w.timings| == 2 && w.amplitudes == [OnAmplitude, OffAmplitude] && w.repeat == RepeatFromStart
    ensures w.timings[0] + w.timings[1] == beatInterval
    ensures w.timings[0] <= MaxPulseMs
    ensures beatInterval >= 0 ==> 0 <= w.timings[0] && 2 * w.timings[0] <= beatInterval && w.timings[0] <= w.timings[1]
    ensures beatInterval < 300 ==> w.timings[0] == HalfTowardZero(beatInterval)
    ensures beatInterval >= 300 ==> w.timings[0] == MaxPulseMs
    ensures beatInterval < 0 ==> beatInterval <= w.timings[1] <= w.timings[0] <= 0
    ensures LongMin <= w.timings[0] <= LongMax && LongMin <= w.timings[1] <= LongMax
  {
    BeatVibrateDurationValue(beatInterval);
    var on := BeatVibrateDuration(beatInterval);
    VibrationWaveform([on, beatInterval - on], [OnAmplitude, OffAmplitude], RepeatFromStart)
  }

  /**
    `createTempoVibrationWaveform(tempo)`. The tempo-to-interval conversion it calls
    is not part of this model, so it is a parameter.
  */
  function CreateTempoVibrationWaveform(tempo: int, tempoToInterval: int -> int): (w: VibrationWaveform)
    requires ModelledInterval(tempoToInterval(tempo))
    ensures |w.timings| == 2 && w.amplitudes == [OnAmplitude, OffAmplitude] && w.repeat == RepeatFromStart
    ensures w.timings[0] + w.timings[1] == tempoToInterval(tempo)
    ensures tempoToInterval(tempo) >= 0 ==> 0 <= w.timings[0] <= MaxPulseMs && 0 <= w.timings[1]
  {
    WaveformForInterval(tempoToInterval(tempo))
  }

  /**
    Slower tempos never give a shorter on-pulse: the on-pulse grows with the
    interval until it reaches the cap.
  */
  lemma OnPulseMonotonic(i: int, j: int)
    requires ModelledInterval(i) && ModelledInterval(j) && i <= j
    ensures BeatVibrateDuration(i) <= BeatVibrateDuration(j)
  {
  }
}
