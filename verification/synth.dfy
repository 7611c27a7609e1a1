/**
  `generateHat606`: derive the envelope and frequency parameters, then fill
  the buffer one sample at a time. Each sample advances and wraps the six
  phases, averages the six squares, and scales the average by the current
  amplitude and by `level`. The amplitude is then updated for the next
  sample. The caller's buffer is modelled as the returned sequence.
 */
module Synth {
  import opened Reals
  import opened Params
  import opened Envelope
  import opened Oscillators

  /** Highest oscillator frequency the `tune` knob can reach: 946 Hz times 1.2. */
  const MaxFreq: real := 1135.2

  /**
    The value of sample `n` in the functional form of the loop, defined by
    recursion on `n`: the mix of the phases after `n + 1` updates, times the
    envelope's amplitude at `n`, times `level`. The amplitude has a proved
    closed form (`AmpClosedForm`); each phase is `n + 1` increments less a
    whole number of turns (`PhaseTurns`). `decaySamples` and `incs` are the
    quantities derived before the loop.
   */
  function SampleValue(n: nat, decaySamples: nat, incs: seq<real>, level: real,
                       sinNonNeg: real -> bool): real
    requires |incs| == NumOscillators
  {
    ApplyEnvelope(Mix(PhasesAfter(n + 1, incs), sinNonNeg),
                  AmpAt(n, decaySamples, AmpDecayRate(decaySamples)), level)
  }

  /** The mixed value scaled by the current amplitude and by `level` (`sampleValue *= amp * level`). */
  function ApplyEnvelope(mix: real, amp: real, level: real): real {
    mix * (amp * level)
  }

  /** No sample is louder than `level`. */
  lemma SampleBounded(n: nat, decaySamples: nat, incs: seq<real>, level: real,
                      sinNonNeg: real -> bool)
    requires |incs| == NumOscillators
    ensures Abs(SampleValue(n, decaySamples, incs, level, sinNonNeg)) <= Abs(level)
  {
    ScaledMagnitude(Mix(PhasesAfter(n + 1, incs), sinNonNeg),
                    AmpAt(n, decaySamples, AmpDecayRate(decaySamples)), level);
  }

  /** Every sample after the decay length is exactly 0. */
  lemma SilentAfterDecay(n: nat, decaySamples: nat, incs: seq<real>, level: real,
                         sinNonNeg: real -> bool)
    requires |incs| == NumOscillators && n > decaySamples
    ensures SampleValue(n, decaySamples, incs, level, sinNonNeg) == 0.0
  {
    AmpSilentAfterCutoff(n, decaySamples, AmpDecayRate(decaySamples));
  }

  /**
    On the ramp the mix of sample `n` is scaled by `level * (1 - n / decaySamples)`;
    over exact reals that factor is already 0 at `decaySamples`.
   */
  lemma SampleOnRamp(n: nat, decaySamples: nat, incs: seq<real>, level: real,
                     sinNonNeg: real -> bool)
    requires |incs| == NumOscillators && 0 < decaySamples && n <= decaySamples
    ensures SampleValue(n, decaySamples, incs, level, sinNonNeg)
         == Mix(PhasesAfter(n + 1, incs), sinNonNeg)
            * ((1.0 - n as real / decaySamples as real) * level)
    ensures n == decaySamples ==> SampleValue(n, decaySamples, incs, level, sinNonNeg) == 0.0
  {
    LinearRampToCutoff(n, decaySamples);
  }

  /** A zero `level` silences every sample. */
  lemma ZeroLevelIsSilent(n: nat, decaySamples: nat, incs: seq<real>, sinNonNeg: real -> bool)
    requires |incs| == NumOscillators
    ensures SampleValue(n, decaySamples, incs, 0.0, sinNonNeg) == 0.0
  {
    SampleBounded(n, decaySamples, incs, 0.0, sinNonNeg);
  }

  /**
    At any sample rate of at least 1135.2 Hz, every phase increment is at most
    one turn, so the single-step wrap keeps every accumulator in [0, TwoPi] forever.
   */
  lemma PhasesStayInRange(k: nat, p: HatParams, sampleRate: real)
    requires KnobsInRange(p) && sampleRate >= MaxFreq
    ensures PhasesInRange(PhasesAfter(k, Increments(FreqScale(p.tune), sampleRate)))
  {
    var scale := FreqScale(p.tune);
    assert 946.0 * scale <= MaxFreq;
  }

  /**
    The inner loop over the six oscillators: advance and wrap each phase in
    place and add up the square values of the new phases.
   */
  method AdvanceAndSum(phases: seq<real>, freqScale: real, sampleRate: real, sinNonNeg: real -> bool)
    returns (next: seq<real>, sum: real)
    requires |phases| == NumOscillators && sampleRate > 0.0
    ensures next == AdvanceBank(phases, Increments(freqScale, sampleRate))
    ensures sum == Sum(Squares(next, sinNonNeg))
  {
    ghost var incs := Increments(freqScale, sampleRate);
    next := phases;
    sum := 0.0;
    var i := 0;
    while i < NumOscillators
      invariant i <= NumOscillators && |next| == NumOscillators
      invariant forall j :: 0 <= j < i ==> next[j] == WrapPhase(phases[j], incs[j])
      invariant forall j :: i <= j < NumOscillators ==> next[j] == phases[j]
      invariant sum == Sum(Squares(next[..i], sinNonNeg))
    {
      var phase := next[i] + PhaseIncrement(BaseFreqs[i] * freqScale, sampleRate);
      if phase > TwoPi {
        phase := phase - TwoPi;
      }
      IncrementAt(i, freqScale, sampleRate);
      assert phase == WrapPhase(phases[i], incs[i]);
      ghost var prefix := next[..i];
      next := next[i := phase];
      assert next[..i + 1] == prefix + [phase];
      SumSquaresSnoc(prefix, phase, sinNonNeg);
      sum := sum + Square(phase, sinNonNeg);
      i := i + 1;
    }
    assert next == next[..NumOscillators];
  }

  /** Adding one oscillator to the mix adds its square value to the sum. */
  lemma SumSquaresSnoc(phases: seq<real>, phase: real, sinNonNeg: real -> bool)
    ensures Sum(Squares(phases + [phase], sinNonNeg))
         == Sum(Squares(phases, sinNonNeg)) + Square(phase, sinNonNeg)
  {
    var all := Squares(phases + [phase], sinNonNeg);
    assert all[..|phases|] == Squares(phases, sinNonNeg);
  }

  /** The loop's state after `n` samples determines sample `n` as `SampleValue` does. */
  lemma SampleValueOfState(n: nat, decaySamples: nat, incs: seq<real>, level: real,
                           sinNonNeg: real -> bool, phases: seq<real>, mix: real, amp: real)
    requires |incs| == NumOscillators
    requires phases == PhasesAfter(n + 1, incs) && |phases| == NumOscillators
    requires mix == Mix(phases, sinNonNeg)
    requires amp == AmpAt(n, decaySamples, AmpDecayRate(decaySamples))
    ensures ApplyEnvelope(mix, amp, level)
         == SampleValue(n, decaySamples, incs, level, sinNonNeg)
  {
  }

  /** Appending the next `SampleValue` keeps the whole buffer equal to `SampleValue` at every index. */
  lemma AppendSample(buffer: seq<real>, decaySamples: nat, incs: seq<real>, level: real,
                     sinNonNeg: real -> bool, v: real)
    requires |incs| == NumOscillators
    requires forall k :: 0 <= k < |buffer| ==>
               buffer[k] == SampleValue(k, decaySamples, incs, level, sinNonNeg)
    requires v == SampleValue(|buffer|, decaySamples, incs, level, sinNonNeg)
    ensures forall k :: 0 <= k < |buffer| + 1 ==>
              (buffer + [v])[k] == SampleValue(k, decaySamples, incs, level, sinNonNeg)
  {
  }

  /** Any buffer of `SampleValue` entries is bounded by `level` and silent after the decay. */
  lemma BufferBounds(buffer: seq<real>, decaySamples: nat, incs: seq<real>, level: real,
                     sinNonNeg: real -> bool)
    requires |incs| == NumOscillators
    requires forall n :: 0 <= n < |buffer| ==>
               buffer[n] == SampleValue(n, decaySamples, incs, level, sinNonNeg)
    ensures forall n :: 0 <= n < |buffer| ==> Abs(buffer[n]) <= Abs(level)
    ensures forall n :: decaySamples < n < |buffer| ==> buffer[n] == 0.0
  {
    forall n | 0 <= n < |buffer|
      ensures Abs(buffer[n]) <= Abs(level)
      ensures n > decaySamples ==> buffer[n] == 0.0
    {
      SampleBounded(n, decaySamples, incs, level, sinNonNeg);
      if n > decaySamples {
        SilentAfterDecay(n, decaySamples, incs, level, sinNonNeg);
      }
    }
  }

  /** The amplitude update after sample `n` (`amp -= ampDecayRate` with a floor at 0, or 0 after the cutoff). */
  method DecayAmp(amp: real, n: nat, decaySamples: nat, ampDecayRate: real) returns (next: real)
    ensures next == Step(amp, n, decaySamples, ampDecayRate)
    ensures 0.0 <= next
    ensures 0.0 <= amp && 0.0 <= ampDecayRate ==> next <= amp
    ensures n >= decaySamples ==> next == 0.0
    ensures n < decaySamples && ampDecayRate <= amp ==> next == amp - ampDecayRate
  {
    next := amp;
    if n < decaySamples {
      next := next - ampDecayRate;
      if next < 0.0 {
        next := 0.0;
      }
    } else {
      next := 0.0;
    }
  }

  /**
    One pass of the sample loop: advance the oscillators, mix them, apply the
    envelope, then update the amplitude for the next sample.
   */
  method RenderSample(n: nat, phases: seq<real>, amp: real, decaySamples: nat, freqScale: real,
                      sampleRate: real, level: real, sinNonNeg: real -> bool)
    returns (nextPhases: seq<real>, sampleValue: real, nextAmp: real)
    requires sampleRate > 0.0
    requires phases == PhasesAfter(n, Increments(freqScale, sampleRate))
    requires amp == AmpAt(n, decaySamples, AmpDecayRate(decaySamples))
    ensures nextPhases == PhasesAfter(n + 1, Increments(freqScale, sampleRate))
    ensures sampleValue == SampleValue(n, decaySamples, Increments(freqScale, sampleRate), level, sinNonNeg)
    ensures nextAmp == AmpAt(n + 1, decaySamples, AmpDecayRate(decaySamples))
  {
    ghost var incs := Increments(freqScale, sampleRate);
    nextPhases, sampleValue := AdvanceAndSum(phases, freqScale, sampleRate, sinNonNeg);
    sampleValue := sampleValue / 6.0;
    ghost var mix := sampleValue;
    sampleValue := ApplyEnvelope(sampleValue, amp, level);
    SampleValueOfState(n, decaySamples, incs, level, sinNonNeg, nextPhases, mix, amp);
    nextAmp := DecayAmp(amp, n, decaySamples, AmpDecayRate(decaySamples));
  }

  /**
    The sample loop. Phases are updated in place as in the source; the
    amplitude is updated after each sample is written. The result is the
    functional-form `SampleValue` at every index.
   */
  method GenerateHat606(numSamples: nat, sampleRate: real, p: HatParams, sinNonNeg: real -> bool)
    returns (buffer: seq<real>)
    requires KnobsInRange(p) && sampleRate > 0.0
    ensures |buffer| == numSamples
    ensures forall n :: 0 <= n < numSamples ==>
              buffer[n] == SampleValue(n, DecaySamples(p, sampleRate),
                                       Increments(FreqScale(p.tune), sampleRate), p.level, sinNonNeg)
    ensures forall n :: 0 <= n < numSamples ==> Abs(buffer[n]) <= Abs(p.level)
    ensures forall n :: DecaySamples(p, sampleRate) < n < numSamples ==> buffer[n] == 0.0
    ensures p.level == 0.0 ==> forall n :: 0 <= n < numSamples ==> buffer[n] == 0.0
  {
    var decaySamples := DecaySamples(p, sampleRate);
    var amp := 1.0;
    var freqScale := FreqScale(p.tune);
    var phases := seq(NumOscillators, i => 0.0);
    ghost var incs := Increments(freqScale, sampleRate);

    buffer := [];
    var n := 0;
    while n < numSamples
      invariant n <= numSamples && |buffer| == n
      invariant amp == AmpAt(n, decaySamples, AmpDecayRate(decaySamples))
      invariant phases == PhasesAfter(n, incs)
      invariant forall k :: 0 <= k < n ==>
                  buffer[k] == SampleValue(k, decaySamples, incs, p.level, sinNonNeg)
    {
      var sampleValue;
      phases, sampleValue, amp := RenderSample(n, phases, amp, decaySamples, freqScale,
                                               sampleRate, p.level, sinNonNeg);
      AppendSample(buffer, decaySamples, incs, p.level, sinNonNeg, sampleValue);
      buffer := buffer + [sampleValue];
      n := n + 1;
    }
    BufferBounds(buffer, decaySamples, incs, p.level, sinNonNeg);
  }
}
