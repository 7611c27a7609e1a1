/**
  The bank of six detuned square oscillators. Each has a phase accumulator
  that starts at 0. Every sample, the accumulator advances by
  `TWO_PI * freq / sampleRate` and is wrapped once by subtracting `TWO_PI` if it
  went past it. The square value is +1 where `sinf(phase) >= 0` and -1
  elsewhere. The sine itself is not modelled: its sign is the parameter
  `sinNonNeg`. The six squares are averaged.
 */
module Oscillators {
  import opened Reals

  /** `TWO_PI` as the source spells it: a truncated decimal, not the real 2*pi. */
  const TwoPi: real := 6.283185307

  const NumOscillators: nat := 6

  /** Base frequencies in Hz of the six oscillators. */
  const BaseFreqs: seq<real> := [452.0, 539.0, 645.0, 750.0, 851.0, 946.0]

  /** The per-sample phase advance of an oscillator at `freq` Hz. */
  function PhaseIncrement(freq: real, sampleRate: real): (inc: real)
    requires sampleRate > 0.0
    ensures 0.0 < freq <= sampleRate ==> 0.0 < inc <= TwoPi
  {
    var inc := TwoPi * freq / sampleRate;
    assert 0.0 < freq <= sampleRate ==> 0.0 < inc <= TwoPi by {
      if 0.0 < freq <= sampleRate {
        assert inc == TwoPi * (freq / sampleRate);
        assert 0.0 < freq / sampleRate <= 1.0;
        MulNonNeg(TwoPi, 1.0 - freq / sampleRate);
      }
    }
    inc
  }

  /** The increments of the whole bank once every base frequency is scaled. */
  function Increments(freqScale: real, sampleRate: real): (incs: seq<real>)
    requires sampleRate > 0.0
    ensures |incs| == NumOscillators
    ensures 0.0 < freqScale && 946.0 * freqScale <= sampleRate ==> IncrementsInRange(incs)
  {
    var incs := seq(NumOscillators, i requires 0 <= i < NumOscillators =>
      PhaseIncrement(BaseFreqs[i] * freqScale, sampleRate));
    assert 0.0 < freqScale && 946.0 * freqScale <= sampleRate ==> IncrementsInRange(incs) by {
      if 0.0 < freqScale && 946.0 * freqScale <= sampleRate {
        forall i | 0 <= i < NumOscillators
          ensures 0.0 < incs[i] <= TwoPi
        {
          assert 0.0 < BaseFreqs[i] <= 946.0;
          assert BaseFreqs[i] * freqScale <= 946.0 * freqScale by {
            MulNonNeg(946.0 - BaseFreqs[i], freqScale);
          }
          MulNonNeg(BaseFreqs[i], freqScale);
        }
      }
    }
    incs
  }

  /** Oscillator `i` advances by the increment of its own scaled base frequency. */
  lemma IncrementAt(i: nat, freqScale: real, sampleRate: real)
    requires i < NumOscillators && sampleRate > 0.0
    ensures Increments(freqScale, sampleRate)[i] == PhaseIncrement(BaseFreqs[i] * freqScale, sampleRate)
  {
  }

  predicate PhasesInRange(phases: seq<real>) {
    forall i :: 0 <= i < |phases| ==> 0.0 <= phases[i] <= TwoPi
  }

  /** Every increment is positive and at most one turn. */
  predicate IncrementsInRange(incs: seq<real>) {
    forall i :: 0 <= i < |incs| ==> 0.0 < incs[i] <= TwoPi
  }

  /**
    One phase update: advance, then subtract one turn if past `TwoPi`. The
    result equals the advanced phase modulo one turn, and a single subtraction
    keeps it in range whenever the increment is at most one turn.
   */
  function WrapPhase(phase: real, inc: real): (next: real)
    ensures next == phase + inc || next == phase + inc - TwoPi
    ensures next > TwoPi ==> phase + inc > 2.0 * TwoPi
    ensures 0.0 <= phase <= TwoPi && 0.0 < inc <= TwoPi ==> 0.0 < next <= TwoPi
  {
    var advanced := phase + inc;
    if advanced > TwoPi then advanced - TwoPi else advanced
  }

  /** Every oscillator's phase updated once. */
  function AdvanceBank(phases: seq<real>, incs: seq<real>): (next: seq<real>)
    requires |phases| == |incs|
    ensures |next| == |phases|
    ensures PhasesInRange(phases) && IncrementsInRange(incs) ==> PhasesInRange(next)
  {
    seq(|phases|, i requires 0 <= i < |phases| => WrapPhase(phases[i], incs[i]))
  }

  /** The phases after `k` samples; the accumulators start at 0. */
  function PhasesAfter(k: nat, incs: seq<real>): (phases: seq<real>)
    ensures |phases| == |incs|
    ensures IncrementsInRange(incs) ==> PhasesInRange(phases)
    decreases k
  {
    if k == 0 then seq(|incs|, i => 0.0)
    else AdvanceBank(PhasesAfter(k - 1, incs), incs)
  }

  /** `n` copies of `x` added up: the product `n * x`, built without multiplication. */
  function Times(n: nat, x: real): real
    decreases n
  {
    if n == 0 then 0.0 else Times(n - 1, x) + x
  }

  lemma {:induction false} TimesIsProduct(n: nat, x: real)
    ensures Times(n, x) == n as real * x
    decreases n
  {
    if n > 0 {
      TimesIsProduct(n - 1, x);
      assert n as real * x == (n - 1) as real * x + x;
    }
  }

  /**
    The accumulator after `k` samples is `k` increments less `m` whole turns,
    for the number `m <= k` of wraps so far.
   */
  lemma {:induction false} PhaseWraps(k: nat, incs: seq<real>, i: nat) returns (m: nat)
    requires i < |incs|
    ensures PhasesAfter(k, incs)[i] == Times(k, incs[i]) - Times(m, TwoPi)
    ensures m <= k
    decreases k
  {
    if k == 0 {
      m := 0;
    } else {
      var m0 := PhaseWraps(k - 1, incs, i);
      PhaseStep(k - 1, incs, i);
      var before := PhasesAfter(k - 1, incs)[i];
      m := if before + incs[i] > TwoPi then m0 + 1 else m0;
    }
  }

  /** One sample later, oscillator `i` holds its wrapped, advanced phase. */
  lemma PhaseStep(k: nat, incs: seq<real>, i: nat)
    requires i < |incs|
    ensures PhasesAfter(k + 1, incs)[i] == WrapPhase(PhasesAfter(k, incs)[i], incs[i])
  {
  }

  /**
    Closed form of the phase recurrence up to the wrap count: after `k`
    samples oscillator `i` holds `k * incs[i] - m * TwoPi` for some `m` in [0, k].
   */
  lemma PhaseTurns(k: nat, incs: seq<real>, i: nat) returns (m: nat)
    requires i < |incs|
    ensures PhasesAfter(k, incs)[i] == k as real * incs[i] - m as real * TwoPi
    ensures m <= k
  {
    m := PhaseWraps(k, incs, i);
    var inc := incs[i];
    TimesIsProduct(k, inc);
    TimesIsProduct(m, TwoPi);
    assert PhasesAfter(k, incs)[i] == Times(k, inc) - Times(m, TwoPi);
  }

  /** The square value of one oscillator: the sign of the sine of its phase. */
  function Square(phase: real, sinNonNeg: real -> bool): (sq: real)
    ensures sq == 1.0 || sq == -1.0
    ensures sq == 1.0 <==> sinNonNeg(phase)
  {
    if sinNonNeg(phase) then 1.0 else -1.0
  }

  function Squares(phases: seq<real>, sinNonNeg: real -> bool): (sqs: seq<real>)
    ensures |sqs| == |phases|
    ensures forall i :: 0 <= i < |sqs| ==> -1.0 <= sqs[i] <= 1.0
  {
    seq(|phases|, i requires 0 <= i < |phases| => Square(phases[i], sinNonNeg))
  }

  /** Sum of a sequence, accumulated from the front as the source's loop does. */
  function Sum(xs: seq<real>): real
    decreases |xs|
  {
    if |xs| == 0 then 0.0 else Sum(xs[..|xs| - 1]) + xs[|xs| - 1]
  }

  /** A sum of values in [-1, 1] is bounded by the number of terms. */
  lemma {:induction false} SumBound(xs: seq<real>)
    requires forall i :: 0 <= i < |xs| ==> -1.0 <= xs[i] <= 1.0
    ensures -(|xs| as real) <= Sum(xs) <= |xs| as real
    decreases |xs|
  {
    if |xs| > 0 {
      var init := xs[..|xs| - 1];
      assert forall i :: 0 <= i < |init| ==> init[i] == xs[i];
      SumBound(init);
    }
  }

  /** The mixdown: the average of the six square values lies in [-1, 1]. */
  function Mix(phases: seq<real>, sinNonNeg: real -> bool): (v: real)
    requires |phases| == NumOscillators
    ensures -1.0 <= v <= 1.0
  {
    var sqs := Squares(phases, sinNonNeg);
    SumBound(sqs);
    Sum(sqs) / 6.0
  }
}
