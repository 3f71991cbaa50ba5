/**
 * Byte-level encodings used on the SPI link: little-endian unsigned 16- and
 * 32-bit integers, signed 32- and 16-bit integers (two's complement) and
 * IEEE 754 binary32 values, which are kept as opaque 32-bit words.
 */
module Bytes {
  import opened Wrappers

  type byte = x: int | 0 <= x < 0x100

  const U16_LIMIT: nat := 0x1_0000
  const U32_LIMIT: nat := 0x1_0000_0000

  /** A binary32 value as its bit pattern (section 3.4 of IEEE 754-2008). */
  type Float32 = w: int | 0 <= w < 0x1_0000_0000

  // ---------------------------------------------------------------------------------------------
  // unsigned 16-bit

  function DecodeU16(bs: seq<byte>): (v: nat)
    requires |bs| == 2
    ensures v < U16_LIMIT
    ensures v % 0x100 == bs[0] && v / 0x100 == bs[1]
  {
    bs[0] as int + 0x100 * (bs[1] as int)
  }

  function EncodeU16(v: nat): (bs: seq<byte>)
    requires v < U16_LIMIT
    ensures |bs| == 2 && DecodeU16(bs) == v
  {
    [v % 0x100, v / 0x100]
  }

  /** Encoding refuses values outside 0..65535, as a packed 'H' does. */
  function EncodeUnsignedInt(v: int): (r: Option<seq<byte>>)
    ensures r.Some? <==> 0 <= v < U16_LIMIT
    ensures r.Some? ==> |r.value| == 2 && DecodeU16(r.value) == v
  {
    if 0 <= v < U16_LIMIT then Some(EncodeU16(v)) else None
  }

  lemma EncodeDecodeU16(bs: seq<byte>)
    requires |bs| == 2
    ensures EncodeU16(DecodeU16(bs)) == bs
  {
  }

  // ---------------------------------------------------------------------------------------------
  // unsigned 32-bit

  function DecodeU32(bs: seq<byte>): (v: nat)
    requires |bs| == 4
    ensures v < U32_LIMIT
  {
    DecodeU16(bs[..2]) + U16_LIMIT * DecodeU16(bs[2..])
  }

  function EncodeU32(v: nat): (bs: seq<byte>)
    requires v < U32_LIMIT
    ensures |bs| == 4
  {
    EncodeU16(v % U16_LIMIT) + EncodeU16(v / U16_LIMIT)
  }

  lemma DecodeEncodeU32(v: nat)
    requires v < U32_LIMIT
    ensures DecodeU32(EncodeU32(v)) == v
  {
    var bs := EncodeU32(v);
    assert bs[..2] == EncodeU16(v % U16_LIMIT);
    assert bs[2..] == EncodeU16(v / U16_LIMIT);
  }

  lemma EncodeDecodeU32(bs: seq<byte>)
    requires |bs| == 4
    ensures EncodeU32(DecodeU32(bs)) == bs
  {
    var lo, hi := DecodeU16(bs[..2]), DecodeU16(bs[2..]);
    assert (lo + U16_LIMIT * hi) % U16_LIMIT == lo;
    assert (lo + U16_LIMIT * hi) / U16_LIMIT == hi;
    EncodeDecodeU16(bs[..2]);
    EncodeDecodeU16(bs[2..]);
    assert bs == bs[..2] + bs[2..];
  }

  /** Encoding refuses values outside 0..2^32-1, as a packed 'L' does. */
  function EncodeUnsignedLong(v: int): (r: Option<seq<byte>>)
    ensures r.Some? <==> 0 <= v < U32_LIMIT
    ensures r.Some? ==> |r.value| == 4 && DecodeU32(r.value) == v
  {
    if 0 <= v < U32_LIMIT then
      DecodeEncodeU32(v);
      Some(EncodeU32(v))
    else None
  }

  // ---------------------------------------------------------------------------------------------
  // signed 32-bit (two's complement)

  function DecodeI32(bs: seq<byte>): (v: int)
    requires |bs| == 4
    ensures -0x8000_0000 <= v < 0x8000_0000
    ensures v >= 0 <==> bs[3] < 0x80
  {
    var u := DecodeU32(bs);
    if u < 0x8000_0000 then u else u - U32_LIMIT
  }

  function EncodeI32(v: int): (bs: seq<byte>)
    requires -0x8000_0000 <= v < 0x8000_0000
    ensures |bs| == 4
  {
    EncodeU32(if v >= 0 then v else v + U32_LIMIT)
  }

  lemma DecodeEncodeI32(v: int)
    requires -0x8000_0000 <= v < 0x8000_0000
    ensures DecodeI32(EncodeI32(v)) == v
  {
    DecodeEncodeU32(if v >= 0 then v else v + U32_LIMIT);
  }

  lemma EncodeDecodeI32(bs: seq<byte>)
    requires |bs| == 4
    ensures EncodeI32(DecodeI32(bs)) == bs
  {
    EncodeDecodeU32(bs);
  }

  // ---------------------------------------------------------------------------------------------
  // signed 16-bit (two's complement), as the legacy driver packs two bytes with 'h'

  function DecodeI16(bs: seq<byte>): (v: int)
    requires |bs| == 2
    ensures -0x8000 <= v < 0x8000
    ensures v >= 0 <==> bs[1] < 0x80
  {
    var u := DecodeU16(bs);
    if u < 0x8000 then u else u - U16_LIMIT
  }

  function EncodeI16(v: int): (bs: seq<byte>)
    requires -0x8000 <= v < 0x8000
    ensures |bs| == 2
  {
    EncodeU16(if v >= 0 then v else v + U16_LIMIT)
  }

  lemma I16RoundTrip(v: int, bs: seq<byte>)
    requires -0x8000 <= v < 0x8000 && |bs| == 2
    ensures DecodeI16(EncodeI16(v)) == v
    ensures EncodeI16(DecodeI16(bs)) == bs
  {
    EncodeDecodeU16(bs);
  }

  // ---------------------------------------------------------------------------------------------
  // binary32 words

  function DecodeFloat(bs: seq<byte>): (w: Float32)
    requires |bs| == 4
  {
    DecodeU32(bs)
  }

  function EncodeFloat(w: Float32): (bs: seq<byte>)
    ensures |bs| == 4 && DecodeFloat(bs) == w
  {
    DecodeEncodeU32(w);
    EncodeU32(w)
  }

  /** Exponent field all ones and a non-zero fraction. */
  predicate IsNaN(w: Float32)
  {
    (w / 0x80_0000) % 0x100 == 0xff && w % 0x80_0000 != 0
  }

  /**
   * The same test read off the four little-endian bytes: the exponent spans
   * the low seven bits of byte 3 and the top bit of byte 2, the fraction the
   * rest of byte 2 and bytes 0 and 1.
   */
  predicate IsNaNBytes(bs: seq<byte>)
    requires |bs| == 4
  {
    bs[3] % 0x80 == 0x7f && bs[2] >= 0x80 && (bs[2] % 0x80 != 0 || bs[1] != 0 || bs[0] != 0)
  }

  lemma {:induction false} NaNByBytes(bs: seq<byte>)
    requires |bs| == 4
    ensures IsNaN(DecodeFloat(bs)) <==> IsNaNBytes(bs)
  {
    var w := DecodeFloat(bs);
    var low: int := bs[0] as int + 0x100 * (bs[1] as int);
    assert w == low + 0x1_0000 * (bs[2] as int) + 0x100_0000 * (bs[3] as int);
    var e: int := (bs[3] as int) % 0x80 * 2 + (bs[2] as int) / 0x80;
    var f: int := low + 0x1_0000 * ((bs[2] as int) % 0x80);
    var s: int := (bs[3] as int) / 0x80;
    assert w == f + 0x80_0000 * (e + 0x100 * s);
    assert w / 0x80_0000 == e + 0x100 * s;
    assert w % 0x80_0000 == f;
    assert (w / 0x80_0000) % 0x100 == e;
  }
}
