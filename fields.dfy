/**
 * Typed fields on the wire. A response or an EEPROM slot holds little-endian
 * unsigned 16- and 32-bit integers, signed 32-bit integers and binary32
 * words; getters cut a response into consecutive fields, and the recorder's
 * playback cuts it into fixed-size records.
 */
module Fields {
  import opened Wrappers
  import opened Bytes

  /** A value as the drivers pass it around: Python's None, an int, or a float kept as its binary32 word. */
  datatype Value = Absent | Int(i: int) | Real(w: Float32)

  /** The encodings in use: unsigned 'H' and 'L', signed 'l', and 'f', all little-endian. */
  datatype Kind = U16 | U32 | I32 | F32

  function Width(k: Kind): (n: nat)
    ensures n == 2 || n == 4
  {
    if k == U16 then 2 else 4
  }

  /** The values an encoding accepts. */
  predicate Fits(k: Kind, v: Value)
  {
    match k
    case U16 => v.Int? && 0 <= v.i < U16_LIMIT
    case U32 => v.Int? && 0 <= v.i < U32_LIMIT
    case I32 => v.Int? && -0x8000_0000 <= v.i < 0x8000_0000
    case F32 => v.Real?
  }

  /** Packing a value; None where struct.pack raises (a value out of range, None, or the wrong type). */
  function Encode(k: Kind, v: Value): (r: Option<seq<byte>>)
    ensures r.Some? <==> Fits(k, v)
    ensures r.Some? ==> |r.value| == Width(k)
  {
    if !Fits(k, v) then None
    else
      match k
      case U16 => Some(EncodeU16(v.i))
      case U32 => Some(EncodeU32(v.i))
      case I32 => Some(EncodeI32(v.i))
      case F32 => Some(EncodeFloat(v.w))
  }

  function Decode(k: Kind, bs: seq<byte>): (v: Value)
    requires |bs| == Width(k)
    ensures Fits(k, v)
  {
    match k
    case U16 => Int(DecodeU16(bs))
    case U32 => Int(DecodeU32(bs))
    case I32 => Int(DecodeI32(bs))
    case F32 => Real(DecodeFloat(bs))
  }

  /** Every value an encoding accepts decodes back to itself. */
  lemma EncodeThenDecode(k: Kind, v: Value)
    requires Fits(k, v)
    ensures Decode(k, Encode(k, v).value) == v
  {
    match k
    case U16 =>
    case U32 => DecodeEncodeU32(v.i);
    case I32 => DecodeEncodeI32(v.i);
    case F32 =>
  }

  /** Every byte pattern of the right width is the encoding of what it decodes to. */
  lemma DecodeThenEncode(k: Kind, bs: seq<byte>)
    requires |bs| == Width(k)
    ensures Encode(k, Decode(k, bs)) == Some(bs)
  {
    match k
    case U16 => EncodeDecodeU16(bs);
    case U32 => EncodeDecodeU32(bs);
    case I32 => EncodeDecodeI32(bs);
    case F32 => EncodeDecodeU32(bs);
  }

  // ---------------------------------------------------------------------------------------------
  // consecutive fields

  function Size(layout: seq<Kind>): nat
  {
    if layout == [] then 0 else Width(layout[0]) + Size(layout[1..])
  }

  /** Where field `j` of a layout starts. */
  function Offset(layout: seq<Kind>, j: nat): (n: nat)
    requires j <= |layout|
    ensures n + (if j < |layout| then Width(layout[j]) else 0) <= Size(layout)
  {
    if j == 0 then 0 else Width(layout[0]) + Offset(layout[1..], j - 1)
  }

  /** The fields of `layout`, read one after another from the front of `bs`; None when `bs` is too short. */
  function Unpack(bs: seq<byte>, layout: seq<Kind>): (r: Option<seq<Value>>)
    ensures r.Some? <==> Size(layout) <= |bs|
    ensures r.Some? ==> |r.value| == |layout|
  {
    if layout == [] then Some([])
    else if |bs| < Width(layout[0]) then None
    else
      match Unpack(bs[Width(layout[0])..], layout[1..])
      case None => None
      case Some(rest) => Some([Decode(layout[0], bs[..Width(layout[0])])] + rest)
  }

  /** The inverse of Unpack: the fields encoded one after another; None when one of them does not fit. */
  function Pack(layout: seq<Kind>, vs: seq<Value>): (r: Option<seq<byte>>)
    requires |vs| == |layout|
    ensures r.Some? ==> |r.value| == Size(layout)
  {
    if layout == [] then Some([])
    else
      match (Encode(layout[0], vs[0]), Pack(layout[1..], vs[1..]))
      case (Some(head), Some(tail)) => Some(head + tail)
      case _ => None
  }

  /** Field `j` is decoded from the bytes at its offset, as a getter slicing `response[a:b]` does. */
  lemma {:induction false} UnpackAt(bs: seq<byte>, layout: seq<Kind>, j: nat)
    requires Size(layout) <= |bs| && j < |layout|
    ensures Unpack(bs, layout).value[j] == Decode(layout[j], bs[Offset(layout, j)..Offset(layout, j) + Width(layout[j])])
    decreases j
  {
    var w := Width(layout[0]);
    UnpackFirst(bs, layout);
    if j == 0 {
      assert Offset(layout, 0) == 0;
    } else {
      var o := Offset(layout[1..], j - 1);
      var n := Width(layout[j]);
      assert layout[1..][j - 1] == layout[j];
      assert Offset(layout, j) == w + o;
      UnpackAt(bs[w..], layout[1..], j - 1);
      SliceOfSlice(bs, w, o, n);
    }
  }

  /** Unpack peels the first field off the front. */
  lemma UnpackFirst(bs: seq<byte>, layout: seq<Kind>)
    requires Size(layout) <= |bs| && layout != []
    ensures Size(layout[1..]) <= |bs[Width(layout[0])..]|
    ensures Unpack(bs, layout).value == [Decode(layout[0], bs[..Width(layout[0])])] + Unpack(bs[Width(layout[0])..], layout[1..]).value
  {
  }

  lemma SliceOfSlice(bs: seq<byte>, w: nat, o: nat, n: nat)
    requires w + o + n <= |bs|
    ensures bs[w..][o..o + n] == bs[w + o..w + o + n]
  {
  }

  /** Packed fields unpack to themselves, whatever follows them. */
  lemma {:induction false} PackThenUnpack(layout: seq<Kind>, vs: seq<Value>, rest: seq<byte>)
    requires |vs| == |layout| && Pack(layout, vs).Some?
    ensures Unpack(Pack(layout, vs).value + rest, layout) == Some(vs)
    decreases |layout|
  {
    if layout != [] {
      var head := Encode(layout[0], vs[0]).value;
      var tail := Pack(layout[1..], vs[1..]).value;
      var bs := head + tail + rest;
      assert Pack(layout, vs).value + rest == bs;
      assert bs[..Width(layout[0])] == head;
      assert bs[Width(layout[0])..] == tail + rest;
      EncodeThenDecode(layout[0], vs[0]);
      PackThenUnpack(layout[1..], vs[1..], rest);
      assert vs == [vs[0]] + vs[1..];
    }
  }

  /** Unpacked fields pack back to the bytes they were read from. */
  lemma {:induction false} UnpackThenPack(bs: seq<byte>, layout: seq<Kind>)
    requires Size(layout) <= |bs|
    ensures Pack(layout, Unpack(bs, layout).value) == Some(bs[..Size(layout)])
    decreases |layout|
  {
    if layout != [] {
      var w := Width(layout[0]);
      var vs := Unpack(bs, layout).value;
      UnpackThenPack(bs[w..], layout[1..]);
      DecodeThenEncode(layout[0], bs[..w]);
      assert vs[1..] == Unpack(bs[w..], layout[1..]).value;
      assert bs[..w] + bs[w..][..Size(layout[1..])] == bs[..Size(layout)];
    }
  }

  // ---------------------------------------------------------------------------------------------
  // recorder playback

  /** The recorder's raw records: a 16-bit timestamp and two signed 32-bit readings, 10 bytes each. */
  const LONG_RECORD: seq<Kind> := [U16, I32, I32]

  /** The 6-byte records of v1 and the older ndir driver: three unsigned 16-bit values. */
  const SHORT_RECORD: seq<Kind> := [U16, U16, U16]

  lemma RecordSizes()
    ensures Size(LONG_RECORD) == 10 && Size(SHORT_RECORD) == 6
  {
    assert LONG_RECORD[1..][1..][1..] == [];
    assert SHORT_RECORD[1..][1..][1..] == [];
  }

  /** Playback as a function: one record of `layout` per stride, from the front of the response. */
  function Records(bs: seq<byte>, layout: seq<Kind>): (rs: seq<seq<Value>>)
    requires Size(layout) > 0
    ensures forall k :: 0 <= k < |rs| ==> |rs[k]| == |layout|
    decreases |bs|
  {
    if |bs| < Size(layout) then []
    else [Unpack(bs, layout).value] + Records(bs[Size(layout)..], layout)
  }

  /**
   * The playback loop: one record of `layout` per stride of the response,
   * stepping through `range(0, return_count, stride)`.
   */
  method Playback(response: seq<byte>, layout: seq<Kind>) returns (values: seq<seq<Value>>)
    requires Size(layout) > 0
    ensures values == Records(response, layout)
  {
    var stride := Size(layout);
    values := [];
    var i := 0;
    while i < |response|
      invariant i <= |response|
      invariant values + Records(response[i..], layout) == Records(response, layout)
      decreases |response| - i
    {
      if |response| - i < stride {
        assert Records(response[i..], layout) == [];
        i := |response|;
      } else {
        values := values + [Unpack(response[i..], layout).value];
        assert response[i..][stride..] == response[i + stride..];
        i := i + stride;
      }
    }
  }

  /** A response of n whole strides holds n records. */
  lemma {:induction false} RecordsLength(bs: seq<byte>, layout: seq<Kind>, n: nat)
    requires Size(layout) > 0 && |bs| == n * Size(layout)
    ensures |Records(bs, layout)| == n
    decreases n
  {
    var s := Size(layout);
    if n > 0 {
      Peel(n, s);
      var rest := bs[s..];
      assert |rest| == (n - 1) * s;
      RecordsLength(rest, layout, n - 1);
      RecordsFirst(bs, layout);
    }
  }

  lemma Peel(n: nat, s: nat)
    requires n > 0
    ensures n * s == s + (n - 1) * s
  {
  }

  lemma {:induction false} MulMonotone(a: nat, b: nat, s: nat)
    requires a <= b
    ensures a * s <= b * s
    decreases b - a
  {
    if a < b {
      MulMonotone(a, b - 1, s);
      assert (b - 1) * s + s == b * s;
    }
  }

  lemma RecordsFirst(bs: seq<byte>, layout: seq<Kind>)
    requires 0 < Size(layout) <= |bs|
    ensures Records(bs, layout) == [Unpack(bs, layout).value] + Records(bs[Size(layout)..], layout)
  {
  }

  /** Record k is the layout unpacked after k strides, as the loop's slice `response[i:i + stride]` is. */
  lemma {:induction false} RecordsAt(bs: seq<byte>, layout: seq<Kind>, n: nat, k: nat, offset: nat)
    requires Size(layout) > 0 && |bs| == n * Size(layout) && k < n && offset == k * Size(layout)
    ensures |Records(bs, layout)| == n
    ensures offset + Size(layout) <= |bs| && Records(bs, layout)[k] == Unpack(bs[offset..], layout).value
    decreases k
  {
    var s := Size(layout);
    RecordsLength(bs, layout, n);
    StrideFits(n, k, s, offset);
    RecordsFirst(bs, layout);
    if k > 0 {
      var rest := bs[s..];
      StrideFits(n, 1, s, s);
      assert |rest| == (n - 1) * s;
      RecordsAt(rest, layout, n - 1, k - 1, offset - s);
      assert bs[offset..] == rest[offset - s..];
      assert Records(bs, layout)[k] == Records(rest, layout)[k - 1];
    } else {
      assert offset == 0;
    }
  }

  lemma StrideFits(n: nat, k: nat, s: nat, offset: nat)
    requires k < n && offset == k * s
    ensures offset + s <= n * s
    ensures k > 0 ==> offset >= s && offset - s == (k - 1) * s && n * s - s == (n - 1) * s
  {
    MulMonotone(k + 1, n, s);
  }

  /** The bytes a recorder sends for `records`: each record packed, one after another. */
  function PackRecords(layout: seq<Kind>, records: seq<seq<Value>>): (r: Option<seq<byte>>)
    requires forall k :: 0 <= k < |records| ==> |records[k]| == |layout|
  {
    if records == [] then Some([])
    else
      match (Pack(layout, records[0]), PackRecords(layout, records[1..]))
      case (Some(head), Some(tail)) => Some(head + tail)
      case _ => None
  }

  /** Playing back packed records yields the records, in order. */
  lemma {:induction false} PlaybackOfPacked(layout: seq<Kind>, records: seq<seq<Value>>)
    requires Size(layout) > 0
    requires forall j :: 0 <= j < |records| ==> |records[j]| == |layout|
    requires PackRecords(layout, records).Some?
    ensures Records(PackRecords(layout, records).value, layout) == records
    decreases |records|
  {
    if records != [] {
      var head := Pack(layout, records[0]).value;
      var tail := PackRecords(layout, records[1..]).value;
      PackThenUnpack(layout, records[0], tail);
      PlaybackOfPacked(layout, records[1..]);
      assert (head + tail)[Size(layout)..] == tail;
    }
  }
}
