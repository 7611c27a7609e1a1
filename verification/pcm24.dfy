/**
  Conversion of one floating-point sample to a signed 24-bit PCM value and its
  three little-endian bytes, as the WAV writer does for every buffer entry:
  clip to [-1, 1], scale by 2^23 - 1, round to nearest, clamp to the 24-bit
  range, then emit the low three bytes of the two's-complement integer.
 */
module Pcm24 {
  import opened Bytes
  import opened Reals

  /** Largest positive 24-bit sample; a full-scale float maps to it. */
  const FullScale: int := 8388607
  const MinSample: int := -8388608
  const MaxSample: int := 8388607

  predicate InSampleRange(s: int) {
    MinSample <= s <= MaxSample
  }

  /** Saturate a float sample to [-1, 1]. */
  function Clip(v: real): (r: real)
    ensures -1.0 <= r <= 1.0
    ensures -1.0 <= v <= 1.0 ==> r == v
  {
    var hi := if v > 1.0 then 1.0 else v;
    if hi < -1.0 then -1.0 else hi
  }

  /** The clipped value is the point of [-1, 1] nearest to the input. */
  lemma ClipIsNearest(v: real, y: real)
    requires -1.0 <= y <= 1.0
    ensures Abs(Clip(v) - v) <= Abs(y - v)
  {
  }

  /**
    Round to the nearest integer, ties to the even neighbour: what `lrintf`
    computes in the default floating-point rounding mode.
   */
  function RoundNearestEven(x: real): (r: int)
    ensures -0.5 <= r as real - x <= 0.5
    ensures (r as real - x == 0.5 || r as real - x == -0.5) ==> r % 2 == 0
  {
    var f := x.Floor;
    var frac := x - f as real;
    if frac < 0.5 then f
    else if frac > 0.5 then f + 1
    else if f % 2 == 0 then f
    else f + 1
  }

  /** Any integer within half a unit of `x`, even on a tie, is the rounded value. */
  lemma RoundNearestEvenUnique(x: real, k: int)
    requires -0.5 <= k as real - x <= 0.5
    requires (k as real - x == 0.5 || k as real - x == -0.5) ==> k % 2 == 0
    ensures k == RoundNearestEven(x)
  {
    var r := RoundNearestEven(x);
    assert (k - r) as real == (k as real - x) - (r as real - x);
  }

  /** Saturate an integer to the signed 24-bit range. */
  function Clamp24(s: int): (r: int)
    ensures InSampleRange(r)
    ensures InSampleRange(s) ==> r == s
    ensures s > MaxSample ==> r == MaxSample
    ensures s < MinSample ==> r == MinSample
  {
    var hi := if s > MaxSample then MaxSample else s;
    if hi < MinSample then MinSample else hi
  }

  /** The integer the writer encodes for the float sample `v`. */
  function Quantize(v: real): (s: int)
    ensures InSampleRange(s)
    ensures -0.5 <= s as real - Clip(v) * FullScale as real <= 0.5
  {
    ClampIsNoOp(v);
    Clamp24(RoundNearestEven(Clip(v) * FullScale as real))
  }

  /**
    After clipping and rounding the value already lies in [-(2^23 - 1), 2^23 - 1],
    so the writer's final clamp never changes it, and never produces -2^23.
   */
  lemma ClampIsNoOp(v: real)
    ensures -FullScale <= RoundNearestEven(Clip(v) * FullScale as real) <= FullScale
    ensures Clamp24(RoundNearestEven(Clip(v) * FullScale as real))
         == RoundNearestEven(Clip(v) * FullScale as real)
  {
    var scaled := Clip(v) * FullScale as real;
    var c := Clip(v);
    assert -1.0 <= c <= 1.0;
    assert -FullScale as real <= scaled <= FullScale as real;
    var r := RoundNearestEven(scaled);
    assert r as real <= FullScale as real + 0.5;
    assert r as real >= -FullScale as real - 0.5;
  }

  /** Full-scale inputs reach the positive and negative extremes exactly. */
  lemma QuantizeFullScale()
    ensures Quantize(1.0) == FullScale
    ensures Quantize(-1.0) == -FullScale
    ensures Quantize(0.0) == 0
  {
    RoundNearestEvenUnique(FullScale as real, FullScale);
    RoundNearestEvenUnique(-FullScale as real, -FullScale);
    RoundNearestEvenUnique(0.0, 0);
  }

  /**
    The three bytes written for `sample`: `sample & 0xFF`, `(sample >> 8) & 0xFF`
    and `(sample >> 16) & 0xFF`. On a two's-complement integer, `>> k` is floor
    division by 2^k and `& 0xFF` is the remainder modulo 256, which is what
    Dafny's `/` and `%` compute for a positive divisor.
   */
  function Encode24(sample: int): (bs: seq<uint8>)
    ensures |bs| == 3
    ensures InSampleRange(sample) ==> Decode24(bs) == sample
  {
    var b1 := sample % 0x100;
    var b2 := (sample / 0x100) % 0x100;
    var b3 := (sample / 0x1_0000) % 0x100;
    Encode24RoundTrip(sample);
    [b1, b2, b3]
  }

  /** A reader's view of three little-endian bytes as a signed 24-bit value. */
  function Decode24(bs: seq<uint8>): (s: int)
    requires |bs| == 3
    ensures InSampleRange(s)
  {
    var u := bs[0] as int + 0x100 * bs[1] as int + 0x1_0000 * bs[2] as int;
    if u >= 0x80_0000 then u - 0x100_0000 else u
  }

  lemma Encode24RoundTrip(sample: int)
    ensures InSampleRange(sample) ==>
      Decode24([sample % 0x100, (sample / 0x100) % 0x100, (sample / 0x1_0000) % 0x100]) == sample
  {
    if !InSampleRange(sample) {
      return;
    }
    var q1 := sample / 0x100;
    var q2 := sample / 0x1_0000;
    assert sample == sample % 0x100 + 0x100 * q1;
    assert q1 == q1 % 0x100 + 0x100 * (q1 / 0x100);
    assert q2 == q1 / 0x100;
    assert -0x80 <= q2 < 0x80;
    if q2 >= 0 {
      assert q2 % 0x100 == q2;
    } else {
      assert q2 % 0x100 == q2 + 0x100;
    }
  }

  /** Every three-byte group is the encoding of the value it decodes to. */
  lemma Encode24OfDecode(bs: seq<uint8>)
    requires |bs| == 3
    ensures Encode24(Decode24(bs)) == bs
  {
    var u := bs[0] as int + 0x100 * bs[1] as int + 0x1_0000 * bs[2] as int;
    var s := Decode24(bs);
    var hi: int := if u >= 0x80_0000 then bs[2] as int - 0x100 else bs[2] as int;
    assert s == bs[0] as int + 0x100 * (bs[1] as int + 0x100 * hi);
    SplitDigit(bs[0], bs[1] as int + 0x100 * hi);
    SplitDigit(bs[1], hi);
    assert s / 0x1_0000 == (s / 0x100) / 0x100;
    assert hi % 0x100 == bs[2];
  }
}
