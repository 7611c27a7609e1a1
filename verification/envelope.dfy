/**
  The hi-hat's amplitude envelope, a two-stage machine driven by the sample index.
  The amplitude starts at 1.0. After each sample `n < decaySamples` it drops by
  the per-sample decay rate, with a floor at 0 (stage Decaying). After every
  later sample it is forced to 0 (stage Silent, which nothing leaves).
 */
module Envelope {
  import opened Reals
  import opened Params

  datatype Stage = Decaying | Silent

  /** The stage of the amplitude update that follows sample `n`. */
  function StageAt(n: nat, decaySamples: nat): Stage {
    if n < decaySamples then Decaying else Silent
  }

  /** Once the envelope is Silent it stays Silent. */
  lemma SilentIsTerminal(n: nat, m: nat, decaySamples: nat)
    requires StageAt(n, decaySamples) == Silent && n <= m
    ensures StageAt(m, decaySamples) == Silent
  {
  }

  /** The amplitude update that follows sample `n`. */
  function Step(amp: real, n: nat, decaySamples: nat, rate: real): (next: real)
    ensures 0.0 <= next
    ensures 0.0 <= amp && 0.0 <= rate ==> next <= amp
    ensures StageAt(n, decaySamples) == Silent ==> next == 0.0
  {
    match StageAt(n, decaySamples)
    case Decaying =>
      var lowered := amp - rate;
      if lowered < 0.0 then 0.0 else lowered
    case Silent => 0.0
  }

  /** The amplitude applied to sample `n`: 1.0, then one `Step` per earlier sample. */
  function AmpAt(n: nat, decaySamples: nat, rate: real): (amp: real)
    ensures 0.0 <= amp
    ensures 0.0 <= rate ==> amp <= 1.0
    decreases n
  {
    if n == 0 then 1.0
    else Step(AmpAt(n - 1, decaySamples, rate), n - 1, decaySamples, rate)
  }

  /** The amplitude never increases from one sample to the next. */
  lemma AmpNonIncreasing(n: nat, decaySamples: nat, rate: real)
    requires 0.0 <= rate
    ensures AmpAt(n + 1, decaySamples, rate) <= AmpAt(n, decaySamples, rate)
  {
  }

  /** ... nor over any span of samples. */
  lemma {:induction false} AmpMonotone(m: nat, n: nat, decaySamples: nat, rate: real)
    requires 0.0 <= rate && m <= n
    ensures AmpAt(n, decaySamples, rate) <= AmpAt(m, decaySamples, rate)
    decreases n - m
  {
    if m < n {
      AmpMonotone(m, n - 1, decaySamples, rate);
      AmpNonIncreasing(n - 1, decaySamples, rate);
    }
  }

  /** Every sample after the cutoff gets amplitude exactly 0. */
  lemma AmpSilentAfterCutoff(n: nat, decaySamples: nat, rate: real)
    requires n > decaySamples
    ensures AmpAt(n, decaySamples, rate) == 0.0
  {
  }

  /**
    Closed form of the Decaying stage: up to the cutoff, the amplitude at
    sample `n` is `max(1 - n * rate, 0)`, so it does not depend on the
    earlier samples being computed in order.
   */
  lemma {:induction false} AmpClosedForm(n: nat, decaySamples: nat, rate: real)
    requires 0.0 <= rate && n <= decaySamples
    ensures AmpAt(n, decaySamples, rate) == Max(1.0 - n as real * rate, 0.0)
    decreases n
  {
    if n > 0 {
      AmpClosedForm(n - 1, decaySamples, rate);
      MulSucc(n - 1, rate);
    }
  }

  lemma MulSucc(n: nat, rate: real)
    ensures (n + 1) as real * rate == n as real * rate + rate
  {
  }

  /**
    With the decay rate the parameter derivation picks, the envelope is a
    linear ramp from 1 at sample 0 to exactly 0 at sample `decaySamples`
    (over exact reals), and 0 afterwards. With no decay samples at all, only
    sample 0 is heard.
   */
  lemma {:induction false} LinearRampToCutoff(n: nat, decaySamples: nat)
    ensures decaySamples > 0 && n <= decaySamples ==>
      AmpAt(n, decaySamples, AmpDecayRate(decaySamples))
        == 1.0 - n as real / decaySamples as real
    ensures decaySamples > 0 && n >= decaySamples ==>
      AmpAt(n, decaySamples, AmpDecayRate(decaySamples)) == 0.0
    ensures decaySamples == 0 ==>
      AmpAt(n, decaySamples, AmpDecayRate(decaySamples)) == (if n == 0 then 1.0 else 0.0)
  {
    var rate := AmpDecayRate(decaySamples);
    if decaySamples > 0 {
      var d := decaySamples as real;
      if n <= decaySamples {
        AmpClosedForm(n, decaySamples, rate);
        assert n as real * rate == n as real / d;
        assert n as real / d <= 1.0;
      } else {
        AmpSilentAfterCutoff(n, decaySamples, rate);
      }
    } else if n > 0 {
      AmpSilentAfterCutoff(n, decaySamples, rate);
    }
  }
}
