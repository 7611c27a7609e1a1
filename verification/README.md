# hat606 — a verified model of the 606-style hi-hat generator

`hat606` synthesises a TR-606-flavoured hi-hat and writes it as a 24-bit mono
WAV file. Two routines of `src/main.c` do the work, and both are modelled here:

- `generateHat606` turns the four knobs (`tune`, `decay`, `level`, `open`) into
  a decay length and a frequency scale. It then fills the buffer one sample at
  a time:
  - six detuned square oscillators advance their phase accumulators, each
    wrapped once past `TWO_PI`;
  - the six ±1 squares are averaged;
  - the average is scaled by a linearly decaying amplitude and by `level`.
- `writeWav24Bit` emits the canonical 44-byte RIFF/WAVE header with a PCM
  `fmt ` chunk (the "WAVE Form" chapter of the Microsoft/IBM Multimedia
  Programming Interface and Data Specifications 1.0). It then writes each
  sample as three little-endian two's-complement bytes, after clipping,
  scaling by 8388607, rounding and clamping.

Floats are exact reals. Bytes are integers in [0, 255]. The output stream is
the byte sequence the writer produces. `sinf(phase) >= 0` is a parameter
`sinNonNeg`.

Modules, in dependency order:

- `Reals`: absolute value, maximum and sign facts.
- `Bytes`: fixed-width unsigned values, 32-bit wrap-around, and little-endian
  fields.
- `Pcm24`: one float sample to a 24-bit integer and three bytes.
- `Wav`: the header, the data section, the whole file, and a reader used to
  state the round trips.
- `Params`: the knob-derived quantities.
- `Envelope`: the amplitude as a two-stage machine iterated over the sample
  index.
- `Oscillators`: `TWO_PI`, `BASE_FREQS`, the phase update and the mixdown.
- `Synth`: the sample loop.

Notes on the code's own behaviour, which the model follows:

- The wrap subtracts `TWO_PI` only when the phase exceeds it, so a phase equal
  to `TWO_PI` is kept. Wrapped phases therefore lie in (0, `TWO_PI`].
- A comment in the source says `open` stretches the decay "up to maybe 2x".
  The code's factor `1 + 1.5 * open` reaches 2.5x, and `Params.FinalDecayTime`
  states 2.5x.
- `TWO_PI` is the truncated decimal 6.283185307, not 2π.

## Model

| member | source | states |
|---|---|---|
| Bytes.ToUint32 | src/main.c:117-119 | An `unsigned int` conversion keeps a value already in [0, 2^32) and otherwise differs from it by a multiple of 2^32. |
| Bytes.Le16 | src/main.c:139-144 | A 16-bit field written in host order on a little-endian host is two bytes that read back as the field. |
| Bytes.Le32 | src/main.c:123 | A 32-bit field written in host order on a little-endian host is four bytes that read back as the field. |
| Bytes.Le16OfRead | src/main.c:139-144 | Any two bytes are the encoding of the 16-bit value they read as, so the 16-bit encoding is onto. |
| Bytes.Le32OfRead | src/main.c:123 | Any four bytes are the encoding of the 32-bit value they read as, so the 32-bit encoding is onto. |
| Pcm24.Clip | src/main.c:154-155 | The clipped sample lies in [-1, 1], and a sample already in [-1, 1] passes unchanged. |
| Pcm24.ClipIsNearest | src/main.c:154-155 | The clipped sample is the point of [-1, 1] nearest to the input. |
| Pcm24.RoundNearestEven | src/main.c:159 | `lrintf` lands within 1/2 of its argument, and on a tie it picks the even neighbour. |
| Pcm24.RoundNearestEvenUnique | src/main.c:159 | Any integer within 1/2 of the argument that is even on a tie is the rounded value, so rounding is fully determined. |
| Pcm24.Clamp24 | src/main.c:161-162 | The clamped sample lies in [-8388608, 8388607]. Values in range are kept; values above go to 8388607 and values below go to -8388608. |
| Pcm24.Quantize | src/main.c:152-162 | The integer written for a float lies in the 24-bit range and is within 1/2 of the clipped float times 8388607. |
| Pcm24.ClampIsNoOp | src/main.c:158-162 | After clip and round the value already lies in [-8388607, 8388607], so the final clamp never changes it. |
| Pcm24.QuantizeFullScale | src/main.c:158-159 | The floats 1, -1 and 0 are written as 8388607, -8388607 and 0. |
| Pcm24.Encode24 | src/main.c:165-167 | Every in-range sample's three bytes decode back to the sample: low byte first, top byte read as two's complement. |
| Pcm24.Decode24 | src/main.c:165-171 | A reader's view of three bytes always gives a value in the signed 24-bit range. |
| Pcm24.Encode24OfDecode | src/main.c:165-167 | Every three-byte group is the encoding of the value it decodes to, so the 24-bit encoding is onto. |
| Wav.HeaderFor | src/main.c:117-137 | The header fields whatever the input: `subchunk1Size` 16, PCM format 1, one channel, 24 bits, `blockAlign` 3. `sRate` is the sample rate when it fits. `byteRate` is 3 times the rate when that fits. When `3n + 36 < 2^32`, the data size is `3n` and the RIFF chunk size is `36 + 3n`. |
| Wav.RiffChunkHeader | src/main.c:122-125 | The 12 bytes spell "RIFF", the chunk size at offset 4, and "WAVE". |
| Wav.FmtSubchunk | src/main.c:128-144 | The 24 bytes spell "fmt ". Each of the seven fields reads back at its own offset. |
| Wav.DataSubchunkHeader | src/main.c:147-148 | The 8 bytes spell "data" followed by the data size. |
| Wav.EncodeHeader | src/main.c:122-148 | The header is exactly 44 bytes. The four chunk identifiers sit at offsets 0, 8, 12 and 36. Every field reads back from its offset. |
| Wav.ParseEncodeHeader | src/main.c:122-148 | Whatever follows the header, a reader of this layout recovers every header field exactly. |
| Wav.QuantizeAll | src/main.c:151-162 | There is one 24-bit value per buffer entry, each in range. |
| Wav.EncodeSamples | src/main.c:151-171 | The data section is exactly 3 bytes per sample, and the `i`th three-byte group decodes to the `i`th sample. |
| Wav.DecodeEncodeSamples | src/main.c:151-171 | Decoding the data section gives back the whole sample sequence. |
| Wav.WriteWav24Bit | src/main.c:114-172 | The file is 44 + 3n bytes and starts with the header. When `3n + 36 < 2^32`, the RIFF size field is the file length minus 8 and the data size field is the length minus 44. Each group `i` of the data decodes to the quantized buffer entry `i`. |
| Wav.ReadWav | src/main.c:122-148 | A file the reader accepts is a 44-byte header followed by exactly the declared number of 3-byte samples. |
| Wav.ReadWriteRoundTrip | src/main.c:114-172 | Reading back a written file gives the declared header (sample count, sample rate, bit depth) and every quantized sample, in order. |
| Params.DecayTime | src/main.c:42-44 | For `decay` in [0, 1] the decay time lies in [0.04, 0.4] s, with 0.04 at 0 and 0.4 at 1. |
| Params.FinalDecayTime | src/main.c:48 | With the knobs in [0, 1] the stretched decay lies in [0.04, 1.0] s, and between 1x and 2.5x the unstretched decay time. |
| Params.Stretch | src/main.c:48 | Stretching a nonnegative time by `1 + 1.5 * open`, with `open` in [0, 1], at least keeps it and at most multiplies it by 2.5. |
| Params.FinalDecayTimeMonotone | src/main.c:44-48 | Raising `decay` or `open` never shortens the decay. |
| Params.DecaySamples | src/main.c:51 | The decay length in samples is the whole part of the decay time times the rate, so it is at most one second's worth of samples. |
| Params.AmpDecayRate | src/main.c:56-58 | The decrement lies in (0, 1]. It is 1 when there are no decay samples, and otherwise exactly 1 over the count. |
| Params.FreqScale | src/main.c:62 | For `tune` in [0, 1] the scale lies in [0.8, 1.2], with 0.8 at 0 and 1.2 at 1. |
| Params.ClosedHatDecaySamples | src/main.c:42-51 | A fully closed hat at 48 kHz decays over 1920 samples (40 ms). |
| Params.FullyOpenHatDecaySamples | src/main.c:42-51 | Maximal `decay` and `open` give exactly a one-second decay, 48000 samples at 48 kHz. |
| Params.MidDecayHatDecaySamples | src/main.c:42-51 | `decay` 0.3 with the hat closed gives 7104 samples at 48 kHz. |
| Envelope.SilentIsTerminal | src/main.c:99-106 | Once the envelope is in its Silent stage, it stays there for every later sample. |
| Envelope.Step | src/main.c:99-106 | The amplitude update never goes below 0, never raises a nonnegative amplitude, and gives 0 in the Silent stage. |
| Envelope.AmpAt | src/main.c:55-106 | The amplitude applied to every sample lies in [0, 1]. |
| Envelope.AmpNonIncreasing | src/main.c:99-106 | The amplitude never increases from one sample to the next. |
| Envelope.AmpMonotone | src/main.c:99-106 | The amplitude never increases over any span of samples. |
| Envelope.AmpSilentAfterCutoff | src/main.c:102-106 | Every sample after `decaySamples` gets amplitude exactly 0. |
| Envelope.AmpClosedForm | src/main.c:99-101 | Up to the cutoff, the amplitude at sample `n` is `max(1 - n * rate, 0)`. |
| Envelope.LinearRampToCutoff | src/main.c:55-106 | With the derived rate the amplitude is `1 - n / decaySamples` up to the cutoff. It is already 0 at the cutoff and 0 after it. With no decay samples, only sample 0 is heard. |
| Oscillators.PhaseIncrement | src/main.c:78-80 | An oscillator whose frequency is positive and at most the sample rate advances by more than 0 and at most one turn. |
| Oscillators.Increments | src/main.c:77-80 | There are six increments, and all are in (0, `TWO_PI`] when the scaled highest base frequency is at most the sample rate. |
| Oscillators.WrapPhase | src/main.c:80-83 | The new phase is the advanced phase, or one turn less. It is still past `TWO_PI` only if the advance passed two turns. A phase in [0, `TWO_PI`] with an increment in (0, `TWO_PI`] lands in (0, `TWO_PI`]. |
| Oscillators.AdvanceBank | src/main.c:77-83 | Updating every oscillator once keeps all phases in range when every increment is at most one turn. |
| Oscillators.PhasesAfter | src/main.c:66-83 | From the all-zero start, all six phases stay in [0, `TWO_PI`] after any number of samples, given in-range increments. |
| Oscillators.PhaseWraps | src/main.c:66-83 | The same decomposition stated with repeated addition: after `k` samples an accumulator is `k` added increments less `m <= k` added turns, each step adding one increment and, on a wrap, taking off one turn. |
| Oscillators.PhaseTurns | src/main.c:66-83 | After `k` samples each accumulator holds `k` increments less `m` whole turns of `TWO_PI`, with `0 <= m <= k` wraps, so the phase recurrence has a closed form up to the wrap count. |
| Oscillators.Square | src/main.c:85 | Each square value is +1 exactly when the sine of the phase is nonnegative, and -1 otherwise. |
| Oscillators.SumBound | src/main.c:86 | A sum of values in [-1, 1] is bounded by the number of terms. |
| Oscillators.Mix | src/main.c:75-90 | The average of the six squares lies in [-1, 1]. |
| Synth.SampleBounded | src/main.c:90-96 | No sample is louder than `level`: `|buffer[n]| <= |level|`. |
| Synth.SilentAfterDecay | src/main.c:93-106 | Every sample after `decaySamples` is exactly 0. |
| Synth.SampleOnRamp | src/main.c:93-101 | On the ramp, sample `n` is the mix times `(1 - n / decaySamples) * level`, and it is 0 at the cutoff. |
| Synth.ZeroLevelIsSilent | src/main.c:93 | A zero `level` silences every sample. |
| Synth.PhasesStayInRange | src/main.c:62-83 | With the knobs in [0, 1] and a sample rate of at least 1135.2 Hz, the single-step wrap keeps every phase in [0, `TWO_PI`] forever. |
| Synth.AdvanceAndSum | src/main.c:77-87 | The in-place inner loop leaves each phase advanced and wrapped once, and its running sum is the sum of the new squares. |
| Synth.BufferBounds | src/main.c:73-106 | A buffer whose every entry is `SampleValue` (the functional form of the loop, defined by recursion on the sample index) is bounded by `level` and silent after the decay. |
| Synth.DecayAmp | src/main.c:99-106 | The in-place amplitude update is one step of the two-stage envelope: the new amplitude is never negative, never above a nonnegative old amplitude, exactly the old amplitude minus the rate while that stays nonnegative before the cutoff, and 0 from the cutoff on. |
| Synth.RenderSample | src/main.c:75-106 | One pass of the sample loop advances the phases one sample, writes that sample's `SampleValue` (the functional form of the loop), and leaves the next sample's amplitude. |
| Synth.GenerateHat606 | src/main.c:35-108 | Exactly `numSamples` entries are written. Entry `n` equals `SampleValue`, the functional form of the loop defined by recursion on `n`: the mix of the phases after `n + 1` updates, times the envelope at `n` (which has the closed form of `Envelope.AmpClosedForm`), times `level`. No entry is louder than `level`, every entry after `decaySamples` is 0, and `level = 0` gives an all-zero buffer. |

## Left out

- `main` (src/main.c:185-243) is not modelled: argument parsing with `atof`, choosing the output file or stdout, `calloc`, `free` and `fclose` are process plumbing.
- The `fputs`/`fwrite` stream effects are modelled as the returned byte sequence. Multi-byte header fields are taken to be written little-endian, since only a little-endian host gives a valid RIFF file.
- IEEE-754 `float` arithmetic is modelled with exact reals. Rounding in the phase accumulators, the decay decrement and the `/ 6.0f` average is not modelled, so exact zero at `n = decaySamples` is a property of the real-number model only.
- Pcm24.RoundNearestEven: models `lrintf` in the default round-to-nearest mode; other floating-point rounding modes are not modelled.
- `sinf` is not modelled: the sign of the sine of a phase is the parameter `sinNonNeg`, so Oscillators.Square states only that the square follows that sign.
- Params.DecaySamples: requires `decay` and `open` in [0, 1] and a nonnegative sample rate, because converting a negative float to `size_t` is undefined behaviour in C; it also requires `tune` in [0, 1], which line 51 does not use, only to share `GenerateHat606`'s knob precondition.
- Synth.GenerateHat606: requires the knobs in [0, 1] and a positive sample rate, because the phase increment divides by the sample rate.
- Synth.PhasesStayInRange: the phase range is proved only for sample rates of at least 1135.2 Hz (the highest scaled oscillator frequency). Below that the single-step wrap can leave a phase above `TWO_PI`, and the model keeps that behaviour without bounding it.
- The `size_t` product `numSamples * 3` needs no separate overflow model: the conversion to `unsigned int` keeps its low 32 bits, and because 2^32 divides 2^64 that equals `ToUint32(numSamples * 3)` on the unbounded product, so the 32-bit size fields are exact.
