/**
  Fixed-width unsigned integers and their byte layout on a little-endian host.

  The WAV writer emits its multi-byte header fields with `fwrite` straight from
  memory, so their on-disk order is the host's. RIFF is little-endian, and this
  module models that (and only that) layout.
 */
module Bytes {

  type uint8 = x: int | 0 <= x < 0x100
  type uint16 = x: int | 0 <= x < 0x1_0000
  type uint32 = x: int | 0 <= x < 0x1_0000_0000

  const Two32: int := 0x1_0000_0000

  /** The optional value returned by the parsers of this model. */
  datatype Option<T> = None | Some(value: T)

  /** C's conversion of an integer to `unsigned int`: reduction modulo 2^32. */
  function ToUint32(x: int): (r: uint32)
    ensures 0 <= x < Two32 ==> r == x
    ensures exists k: int {:trigger k * Two32} :: x == r + k * Two32
  {
    var k := x / Two32;
    assert x == x % Two32 + k * Two32;
    x % Two32
  }

  /** The two bytes of a 16-bit field, least significant first. */
  function Le16(x: uint16): (r: seq<uint8>)
    ensures |r| == 2
    ensures ReadLe16(r, 0) == x
  {
    [x % 0x100, x / 0x100]
  }

  /** The four bytes of a 32-bit field, least significant first. */
  function Le32(x: uint32): (r: seq<uint8>)
    ensures |r| == 4
    ensures ReadLe32(r, 0) == x
  {
    var q1 := x / 0x100;
    var q2 := q1 / 0x100;
    [x % 0x100, q1 % 0x100, q2 % 0x100, q2 / 0x100]
  }

  /** The 16-bit field stored at byte offset `at`. */
  function ReadLe16(bs: seq<uint8>, at: nat): (r: uint16)
    requires at + 2 <= |bs|
  {
    bs[at] as int + 0x100 * bs[at + 1] as int
  }

  /** The 32-bit field stored at byte offset `at`. */
  function ReadLe32(bs: seq<uint8>, at: nat): (r: uint32)
    requires at + 4 <= |bs|
  {
    bs[at] as int + 0x100 * (bs[at + 1] as int + 0x100 * (bs[at + 2] as int + 0x100 * bs[at + 3] as int))
  }

  /** Reading a field back and writing it again reproduces the bytes. */
  lemma Le16OfRead(bs: seq<uint8>)
    requires |bs| == 2
    ensures Le16(ReadLe16(bs, 0)) == bs
  {
  }

  lemma Le32OfRead(bs: seq<uint8>)
    requires |bs| == 4
    ensures Le32(ReadLe32(bs, 0)) == bs
  {
    var hi := bs[2] as int + 0x100 * bs[3] as int;
    var mid := bs[1] as int + 0x100 * hi;
    SplitDigit(bs[0], mid);
    SplitDigit(bs[1], hi);
    SplitDigit(bs[2], bs[3]);
  }

  /** Splitting `low + 256 * high` back into its base-256 digits. */
  lemma SplitDigit(low: uint8, high: int)
    ensures (low + 0x100 * high) % 0x100 == low
    ensures (low + 0x100 * high) / 0x100 == high
  {
  }
}
