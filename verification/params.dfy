/**
  The four hi-hat knobs and the quantities `generateHat606` derives from them
  before its sample loop: decay length in seconds and in samples, the
  per-sample amplitude decrement, and the oscillator frequency scale.
  Floats are modelled as exact reals.
 */
module Params {
  import opened Reals

  /** The user's knobs, each nominally in [0, 1]. */
  datatype HatParams = HatParams(tune: real, decay: real, level: real, open: real)

  /** The knobs the derivation depends on lie in [0, 1]; `level` is unconstrained. */
  predicate KnobsInRange(p: HatParams) {
    0.0 <= p.tune <= 1.0 && 0.0 <= p.decay <= 1.0 && 0.0 <= p.open <= 1.0
  }

  const MinDecay: real := 0.04
  const MaxDecay: real := 0.4

  /** Decay time in seconds, interpolated between 40 ms and 400 ms by `decay`. */
  function DecayTime(decay: real): (t: real)
    ensures 0.0 <= decay <= 1.0 ==> MinDecay <= t <= MaxDecay
    ensures decay == 0.0 ==> t == MinDecay
    ensures decay == 1.0 ==> t == MaxDecay
  {
    MinDecay + (MaxDecay - MinDecay) * decay
  }

  /** The `open` knob stretches the decay time by up to 2.5 times. */
  function FinalDecayTime(p: HatParams): (t: real)
    ensures KnobsInRange(p) ==> DecayTime(p.decay) <= t <= 2.5 * DecayTime(p.decay)
    ensures KnobsInRange(p) ==> MinDecay <= t <= 1.0
  {
    Stretch(DecayTime(p.decay), p.open)
  }

  /** `x * (1 + 1.5 * f)`: for `f` in [0, 1] a nonnegative `x` grows at most 2.5 times. */
  function Stretch(x: real, f: real): (y: real)
    ensures 0.0 <= x && 0.0 <= f <= 1.0 ==> x <= y <= 2.5 * x
  {
    StretchBound(x, f);
    x * (1.0 + f * 1.5)
  }

  lemma StretchBound(x: real, f: real)
    ensures 0.0 <= x && 0.0 <= f <= 1.0 ==> x <= x * (1.0 + f * 1.5) <= 2.5 * x
  {
    if 0.0 <= x && 0.0 <= f <= 1.0 {
      MulNonNeg(x, f);
      MulNonNeg(x, 1.0 - f);
      assert x * (1.0 + f * 1.5) == x + 1.5 * (x * f);
    }
  }

  /**
    `(size_t)(finalDecayTime * sampleRate)`: the float-to-unsigned conversion
    truncates toward zero, which for the nonnegative product is the floor.
   */
  function DecaySamples(p: HatParams, sampleRate: real): (d: nat)
    requires KnobsInRange(p) && sampleRate >= 0.0
    ensures d as real <= FinalDecayTime(p) * sampleRate < d as real + 1.0
    ensures d as real <= sampleRate
  {
    var t := FinalDecayTime(p);
    var exact := t * sampleRate;
    assert 0.0 <= exact <= sampleRate by {
      MulNonNeg(t, sampleRate);
      MulNonNeg(1.0 - t, sampleRate);
    }
    exact.Floor
  }

  /** The per-sample amplitude decrement: 1/decaySamples, or 1 when there are none. */
  function AmpDecayRate(decaySamples: nat): (rate: real)
    ensures 0.0 < rate <= 1.0
    ensures decaySamples == 0 ==> rate == 1.0
    ensures decaySamples > 0 ==> rate * decaySamples as real == 1.0
  {
    if decaySamples > 0 then 1.0 / decaySamples as real else 1.0
  }

  /** The multiplier applied to every base frequency: 0.8 at `tune` 0, 1.2 at `tune` 1. */
  function FreqScale(tune: real): (s: real)
    ensures 0.0 <= tune <= 1.0 ==> 0.8 <= s <= 1.2
    ensures tune == 0.0 ==> s == 0.8
    ensures tune == 1.0 ==> s == 1.2
  {
    0.8 + 0.4 * tune
  }

  /** Larger `decay` or `open` never shortens the decay. */
  lemma FinalDecayTimeMonotone(p: HatParams, q: HatParams)
    requires KnobsInRange(p) && KnobsInRange(q)
    requires p.decay <= q.decay && p.open <= q.open
    ensures FinalDecayTime(p) <= FinalDecayTime(q)
  {
    var a := DecayTime(p.decay);
    var b := DecayTime(q.decay);
    var sp := 1.0 + p.open * 1.5;
    var sq := 1.0 + q.open * 1.5;
    assert FinalDecayTime(p) == a * sp && FinalDecayTime(q) == b * sq;
    MulNonNeg(b - a, sp);
    MulNonNeg(b, sq - sp);
    assert b * sp - a * sp == (b - a) * sp;
    assert b * sq - b * sp == b * (sq - sp);
  }

  /** A fully closed hat at 48 kHz decays over 40 ms, that is 1920 samples. */
  lemma ClosedHatDecaySamples(tune: real, level: real)
    requires 0.0 <= tune <= 1.0
    ensures DecaySamples(HatParams(tune, 0.0, level, 0.0), 48000.0) == 1920
  {
  }

  /** Maximal `decay` and `open` give a one-second decay: one sample rate's worth. */
  lemma FullyOpenHatDecaySamples(tune: real, level: real)
    requires 0.0 <= tune <= 1.0
    ensures FinalDecayTime(HatParams(tune, 1.0, level, 1.0)) == 1.0
    ensures DecaySamples(HatParams(tune, 1.0, level, 1.0), 48000.0) == 48000
  {
  }

  /** `decay` 0.3 with the hat closed: 0.148 s, that is 7104 samples at 48 kHz. */
  lemma MidDecayHatDecaySamples(level: real)
    ensures DecaySamples(HatParams(0.5, 0.3, level, 0.0), 48000.0) == 7104
  {
  }
}
