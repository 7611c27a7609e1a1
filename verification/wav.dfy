/**
  The minimal 24-bit mono WAV writer: a canonical 44-byte RIFF/WAVE header with
  a PCM `fmt ` chunk (section "WAVE Form" of the Microsoft/IBM Multimedia
  Programming Interface and Data Specifications 1.0), followed by one 3-byte
  little-endian sample per buffer entry. The output stream is modelled as the
  byte sequence it receives; a reader for the same layout states the round trip.
 */
module Wav {
  import opened Bytes
  import opened Pcm24

  /** The fields of the header, in the order they are written. */
  datatype WavHeader = WavHeader(
    chunkSize: uint32,
    subchunk1Size: uint32,
    audioFormat: uint16,
    numChannels: uint16,
    sampleRate: uint32,
    byteRate: uint32,
    blockAlign: uint16,
    bitsPerSample: uint16,
    subchunk2Size: uint32)

  const HeaderSize: nat := 44

  /** The ASCII chunk identifiers `fputs` writes: "RIFF", "WAVE", "fmt " and "data". */
  const RiffTag: seq<uint8> := [0x52, 0x49, 0x46, 0x46]
  const WaveTag: seq<uint8> := [0x57, 0x41, 0x56, 0x45]
  const FmtTag: seq<uint8> := [0x66, 0x6D, 0x74, 0x20]
  const DataTag: seq<uint8> := [0x64, 0x61, 0x74, 0x61]

  /**
    The header the writer computes for `numSamples` samples at `sampleRate`.
    Every size is an `unsigned int`, so it wraps modulo 2^32.
   */
  function HeaderFor(numSamples: nat, sampleRate: int): (h: WavHeader)
    ensures h.subchunk1Size == 16 && h.audioFormat == 1 && h.numChannels == 1
    ensures h.bitsPerSample == 24 && h.blockAlign == 3
    ensures 0 <= sampleRate < Two32 ==> h.sampleRate == sampleRate
    ensures 0 <= sampleRate && 3 * sampleRate < Two32 ==> h.byteRate == 3 * sampleRate
    ensures 3 * numSamples + 36 < Two32 ==>
              h.subchunk2Size == 3 * numSamples && h.chunkSize == 36 + 3 * numSamples
  {
    var dataChunkSize := ToUint32(numSamples * 3);
    var subchunk2Size := dataChunkSize;
    var chunkSize := ToUint32(36 + subchunk2Size);
    var audioFormat := 1;
    var numChannels := 1;
    var sRate := ToUint32(sampleRate);
    var bitsPerSample := 24;
    var blockAlign := numChannels * (bitsPerSample / 8);
    var byteRate := ToUint32(sRate * blockAlign);
    WavHeader(chunkSize, 16, audioFormat, numChannels, sRate, byteRate,
              blockAlign, bitsPerSample, subchunk2Size)
  }

  /** The four bytes at offset `at` spell the chunk identifier `tag`. */
  predicate HasTag(bs: seq<uint8>, at: nat, tag: seq<uint8>)
    requires at + 4 <= |bs| && |tag| == 4
  {
    bs[at] == tag[0] && bs[at + 1] == tag[1] && bs[at + 2] == tag[2] && bs[at + 3] == tag[3]
  }

  /** The RIFF chunk header: "RIFF", the chunk size, "WAVE". */
  function RiffChunkHeader(chunkSize: uint32): (bs: seq<uint8>)
    ensures |bs| == 12
    ensures HasTag(bs, 0, RiffTag) && ReadLe32(bs, 4) == chunkSize && HasTag(bs, 8, WaveTag)
  {
    RiffTag + Le32(chunkSize) + WaveTag
  }

  /** The PCM `fmt ` subchunk: identifier, size 16, then the six format fields. */
  function FmtSubchunk(h: WavHeader): (bs: seq<uint8>)
    ensures |bs| == 24
    ensures HasTag(bs, 0, FmtTag) && ReadLe32(bs, 4) == h.subchunk1Size
    ensures ReadLe16(bs, 8) == h.audioFormat && ReadLe16(bs, 10) == h.numChannels
    ensures ReadLe32(bs, 12) == h.sampleRate && ReadLe32(bs, 16) == h.byteRate
    ensures ReadLe16(bs, 20) == h.blockAlign && ReadLe16(bs, 22) == h.bitsPerSample
  {
    var head := FmtTag + Le32(h.subchunk1Size);
    var layout := Le16(h.audioFormat) + Le16(h.numChannels);
    var rates := Le32(h.sampleRate) + Le32(h.byteRate);
    var frame := Le16(h.blockAlign) + Le16(h.bitsPerSample);
    var bs := head + layout + rates + frame;
    Embed(head, layout, rates + frame);
    Embed(head + layout, rates, frame);
    Embed(head + layout + rates, frame, []);
    assert bs == head + layout + rates + frame + [];
    assert bs == head + layout + (rates + frame);
    bs
  }

  /** The `data` subchunk header: identifier and the size of the sample data. */
  function DataSubchunkHeader(subchunk2Size: uint32): (bs: seq<uint8>)
    ensures |bs| == 8
    ensures HasTag(bs, 0, DataTag) && ReadLe32(bs, 4) == subchunk2Size
  {
    DataTag + Le32(subchunk2Size)
  }

  /** Where the bytes of `mid` land once it is written after `pre` and before `post`. */
  lemma Embed(pre: seq<uint8>, mid: seq<uint8>, post: seq<uint8>)
    ensures forall k :: 0 <= k < |mid| ==> (pre + mid + post)[|pre| + k] == mid[k]
  {
  }

  /** The 44 header bytes, in the order the writer emits them. */
  function EncodeHeader(h: WavHeader): (bs: seq<uint8>)
    ensures |bs| == HeaderSize
    ensures HasTag(bs, 0, RiffTag) && HasTag(bs, 8, WaveTag)
    ensures HasTag(bs, 12, FmtTag) && HasTag(bs, 36, DataTag)
    ensures ReadLe32(bs, 4) == h.chunkSize && ReadLe32(bs, 16) == h.subchunk1Size
    ensures ReadLe16(bs, 20) == h.audioFormat && ReadLe16(bs, 22) == h.numChannels
    ensures ReadLe32(bs, 24) == h.sampleRate && ReadLe32(bs, 28) == h.byteRate
    ensures ReadLe16(bs, 32) == h.blockAlign && ReadLe16(bs, 34) == h.bitsPerSample
    ensures ReadLe32(bs, 40) == h.subchunk2Size
  {
    var riff := RiffChunkHeader(h.chunkSize);
    var fmt := FmtSubchunk(h);
    var data := DataSubchunkHeader(h.subchunk2Size);
    Embed([], riff, fmt + data);
    Embed(riff, fmt, data);
    Embed(riff + fmt, data, []);
    assert riff + fmt + data == [] + riff + (fmt + data) == riff + fmt + data + [];
    riff + fmt + data
  }

  /** A reader for the header layout: the tags must match, the fields are read back. */
  function ParseHeader(bs: seq<uint8>): (r: Option<WavHeader>)
    ensures r.Some? ==> |bs| >= HeaderSize && HasTag(bs, 0, RiffTag) && HasTag(bs, 36, DataTag)
  {
    if |bs| < HeaderSize then None
    else if !HasTag(bs, 0, RiffTag) || !HasTag(bs, 8, WaveTag) then None
    else if !HasTag(bs, 12, FmtTag) || !HasTag(bs, 36, DataTag) then None
    else Some(WavHeader(
      ReadLe32(bs, 4), ReadLe32(bs, 16),
      ReadLe16(bs, 20), ReadLe16(bs, 22),
      ReadLe32(bs, 24), ReadLe32(bs, 28),
      ReadLe16(bs, 32), ReadLe16(bs, 34),
      ReadLe32(bs, 40)))
  }

  /** Reading the header back recovers every field, whatever follows it. */
  lemma {:induction false} ParseEncodeHeader(h: WavHeader, rest: seq<uint8>)
    ensures ParseHeader(EncodeHeader(h) + rest) == Some(h)
  {
    var hb := EncodeHeader(h);
    ParsePrefix(hb, rest);
    assert ParseHeader(hb) == Some(h);
  }

  /** Bytes after the header do not change what is read from it. */
  lemma ParsePrefix(hb: seq<uint8>, rest: seq<uint8>)
    requires |hb| == HeaderSize
    ensures ParseHeader(hb + rest) == ParseHeader(hb)
  {
    var bs := hb + rest;
    assert forall k :: 0 <= k < HeaderSize ==> bs[k] == hb[k];
    assert HasTag(bs, 0, RiffTag) == HasTag(hb, 0, RiffTag);
    assert HasTag(bs, 8, WaveTag) == HasTag(hb, 8, WaveTag);
    assert HasTag(bs, 12, FmtTag) == HasTag(hb, 12, FmtTag);
    assert HasTag(bs, 36, DataTag) == HasTag(hb, 36, DataTag);
    assert ReadLe32(bs, 4) == ReadLe32(hb, 4) && ReadLe32(bs, 16) == ReadLe32(hb, 16);
    assert ReadLe16(bs, 20) == ReadLe16(hb, 20) && ReadLe16(bs, 22) == ReadLe16(hb, 22);
    assert ReadLe32(bs, 24) == ReadLe32(hb, 24) && ReadLe32(bs, 28) == ReadLe32(hb, 28);
    assert ReadLe16(bs, 32) == ReadLe16(hb, 32) && ReadLe16(bs, 34) == ReadLe16(hb, 34);
    assert ReadLe32(bs, 40) == ReadLe32(hb, 40);
  }

  /** The signed sample stored in the `i`th three-byte group of `data`. */
  function SampleAt(data: seq<uint8>, i: nat): int
    requires 3 * i + 3 <= |data|
  {
    Decode24(data[3 * i..3 * i + 3])
  }

  /** The 24-bit value the writer computes for every buffer entry, in order. */
  function QuantizeAll(buffer: seq<real>): (samples: seq<int>)
    ensures |samples| == |buffer|
    ensures forall i :: 0 <= i < |samples| ==> InSampleRange(samples[i])
  {
    seq(|buffer|, i requires 0 <= i < |buffer| => Quantize(buffer[i]))
  }

  /** The data section: every sample written as three bytes, in order. */
  function EncodeSamples(samples: seq<int>): (data: seq<uint8>)
    ensures |data| == 3 * |samples|
    ensures forall i :: 0 <= i < |samples| && InSampleRange(samples[i]) ==>
              SampleAt(data, i) == samples[i]
    decreases |samples|
  {
    if |samples| == 0 then []
    else
      var init := samples[..|samples| - 1];
      var front := EncodeSamples(init);
      var last := Encode24(samples[|samples| - 1]);
      var data := front + last;
      assert forall i :: 0 <= i < |init| ==> data[3 * i..3 * i + 3] == front[3 * i..3 * i + 3];
      assert data[3 * |init|..3 * |init| + 3] == last;
      data
  }

  /** The decoded samples of a data section made of whole three-byte groups. */
  function DecodeSamples(data: seq<uint8>): (samples: seq<int>)
    requires |data| % 3 == 0
    ensures |samples| == |data| / 3
    ensures forall i :: 0 <= i < |samples| ==> InSampleRange(samples[i])
    decreases |data|
  {
    if |data| == 0 then []
    else [Decode24(data[..3])] + DecodeSamples(data[3..])
  }

  lemma DivThree(n: nat)
    ensures (3 * n) % 3 == 0 && (3 * n) / 3 == n
  {
  }

  /** The `i`th decoded sample is the `i`th three-byte group. */
  lemma {:induction false} DecodeSamplesAt(data: seq<uint8>, i: nat)
    requires |data| % 3 == 0 && i < |data| / 3
    ensures DecodeSamples(data)[i] == SampleAt(data, i)
    decreases i
  {
    if i > 0 {
      DecodeSamplesAt(data[3..], i - 1);
      assert data[3..][3 * (i - 1)..3 * (i - 1) + 3] == data[3 * i..3 * i + 3];
    }
  }

  /** Decoding the data section gives back every sample that was encoded. */
  lemma DecodeEncodeSamples(samples: seq<int>)
    requires forall i :: 0 <= i < |samples| ==> InSampleRange(samples[i])
    ensures DecodeSamples(EncodeSamples(samples)) == samples
  {
    var data := EncodeSamples(samples);
    DivThree(|samples|);
    forall i | 0 <= i < |samples|
      ensures DecodeSamples(data)[i] == samples[i]
    {
      DecodeSamplesAt(data, i);
    }
  }

  /**
    `writeWav24Bit`: the header for `|buffer|` samples, then the data section.
    When the sizes fit in 32 bits, the size fields agree with the bytes written:
    the RIFF chunk size is the file length minus 8, the data size the file
    length minus the 44-byte header.
   */
  function WriteWav24Bit(buffer: seq<real>, sampleRate: int): (bs: seq<uint8>)
    ensures |bs| == HeaderSize + 3 * |buffer|
    ensures bs[..HeaderSize] == EncodeHeader(HeaderFor(|buffer|, sampleRate))
    ensures 3 * |buffer| + 36 < Two32 ==>
              ReadLe32(bs, 4) == |bs| - 8 && ReadLe32(bs, 40) == |bs| - HeaderSize
    ensures forall i :: 0 <= i < |buffer| ==>
              SampleAt(bs[HeaderSize..], i) == Quantize(buffer[i])
  {
    var header := EncodeHeader(HeaderFor(|buffer|, sampleRate));
    var data := EncodeSamples(QuantizeAll(buffer));
    var bs := header + data;
    assert bs[..HeaderSize] == header && bs[HeaderSize..] == data;
    ParseEncodeHeader(HeaderFor(|buffer|, sampleRate), data);
    bs
  }

  /** What a reader recovers from a file: its header and its decoded samples. */
  datatype WavFile = WavFile(header: WavHeader, samples: seq<int>)

  /**
    A reader for the files the writer produces: a valid header whose data size
    matches the bytes that follow and describes whole 24-bit mono samples.
   */
  function ReadWav(bs: seq<uint8>): (r: Option<WavFile>)
    ensures r.Some? ==> |bs| == HeaderSize + 3 * |r.value.samples|
    ensures r.Some? ==> r.value.header.subchunk2Size == 3 * |r.value.samples|
  {
    match ParseHeader(bs)
    case None => None
    case Some(h) =>
      if h.subchunk2Size != |bs| - HeaderSize || (|bs| - HeaderSize) % 3 != 0 then None
      else if h.audioFormat != 1 || h.numChannels != 1 || h.bitsPerSample != 24 then None
      else Some(WavFile(h, DecodeSamples(bs[HeaderSize..])))
  }

  /**
    Round trip: a reader recovers exactly the header the writer declared
    (sample count, sample rate, bit depth) and, for every buffer entry, the
    clipped, scaled and rounded value, within half a unit of the scaled float.
   */
  lemma ReadWriteRoundTrip(buffer: seq<real>, sampleRate: int)
    requires 3 * |buffer| + 36 < Two32
    ensures ReadWav(WriteWav24Bit(buffer, sampleRate))
         == Some(WavFile(HeaderFor(|buffer|, sampleRate), QuantizeAll(buffer)))
  {
    var h := HeaderFor(|buffer|, sampleRate);
    var samples := QuantizeAll(buffer);
    var data := EncodeSamples(samples);
    var bs := WriteWav24Bit(buffer, sampleRate);
    assert bs == EncodeHeader(h) + data;
    ParseEncodeHeader(h, data);
    assert bs[HeaderSize..] == data;
    DecodeEncodeSamples(samples);
  }
}
