/**
 * The calibration record kept in the sensor's EEPROM (NDIRCalib and
 * NDIRRangeCalib): where each field lives, and its JSON form. The common
 * block 0 holds identity and lamp timing; blocks 1 to 5 each hold one
 * measurement range, flagged by `is_set`.
 */
module CalibRecord {
  import opened Wrappers
  import opened Bytes
  import opened Fields
  import opened Jsonable

  // ---------------------------------------------------------------------------------------------
  // EEPROM layout

  const RANGE_IAQ: byte := 1
  const RANGE_SAFETY: byte := 2
  const RANGE_COMBUSTION: byte := 3
  const RANGE_INDUSTRIAL: byte := 4
  const RANGE_CUSTOM: byte := 5

  /** The common block. */
  const COMMON_BLOCK: byte := 0

  const INDEX_NDIR_SERIAL: byte := 0
  const INDEX_BOARD_SERIAL: byte := 1
  const INDEX_SELECTED_RANGE: byte := 2
  const INDEX_LAMP_VOLTAGE: byte := 3
  const INDEX_LAMP_PERIOD: byte := 4
  const INDEX_SAMPLE_START: byte := 5
  const INDEX_SAMPLE_END: byte := 6

  const INDEX_RANGE_IS_SET: byte := 0
  const INDEX_ZERO: byte := 1
  const INDEX_SPAN: byte := 2
  const INDEX_LINEAR_B: byte := 3
  const INDEX_LINEAR_C: byte := 4
  const INDEX_ALPHA_LOW: byte := 5
  const INDEX_ALPHA_HIGH: byte := 6
  const INDEX_BETA_A: byte := 7
  const INDEX_BETA_O: byte := 8
  const INDEX_T_CAL: byte := 9

  /** A field's place in the EEPROM: its block, its index within the block, and its encoding. */
  datatype Slot = Slot(block: byte, index: byte, kind: Kind)

  /** The range blocks, in the order the drivers visit them. */
  const RANGE_BLOCKS: seq<byte> := [RANGE_IAQ, RANGE_SAFETY, RANGE_COMBUSTION, RANGE_INDUSTRIAL, RANGE_CUSTOM]

  /** The seven common fields: two unsigned longs, an unsigned int, a float, three unsigned ints. */
  const COMMON_SLOTS: seq<Slot> := [
    Slot(COMMON_BLOCK, INDEX_NDIR_SERIAL, U32), Slot(COMMON_BLOCK, INDEX_BOARD_SERIAL, U32),
    Slot(COMMON_BLOCK, INDEX_SELECTED_RANGE, U16), Slot(COMMON_BLOCK, INDEX_LAMP_VOLTAGE, F32),
    Slot(COMMON_BLOCK, INDEX_LAMP_PERIOD, U16), Slot(COMMON_BLOCK, INDEX_SAMPLE_START, U16),
    Slot(COMMON_BLOCK, INDEX_SAMPLE_END, U16)]

  function IsSetSlot(block: byte): Slot
  {
    Slot(block, INDEX_RANGE_IS_SET, U16)
  }

  /** The nine coefficients of a range block, all floats. */
  function RangeSlots(block: byte): (ss: seq<Slot>)
    ensures |ss| == 9
    ensures forall i :: 0 <= i < 9 ==> ss[i] == Slot(block, (i + 1) as byte, F32)
  {
    [Slot(block, INDEX_ZERO, F32), Slot(block, INDEX_SPAN, F32),
     Slot(block, INDEX_LINEAR_B, F32), Slot(block, INDEX_LINEAR_C, F32),
     Slot(block, INDEX_ALPHA_LOW, F32), Slot(block, INDEX_ALPHA_HIGH, F32),
     Slot(block, INDEX_BETA_A, F32), Slot(block, INDEX_BETA_O, F32),
     Slot(block, INDEX_T_CAL, F32)]
  }

  /** Every (block, index) the record uses is used once: the range blocks differ from the common block and from each other, and indices within a block differ. */
  lemma LayoutDistinct()
    ensures forall i, j :: 0 <= i < j < |COMMON_SLOTS| ==> COMMON_SLOTS[i].index != COMMON_SLOTS[j].index
    ensures forall i, j :: 0 <= i < j < |RANGE_BLOCKS| ==> RANGE_BLOCKS[i] != RANGE_BLOCKS[j]
    ensures forall i :: 0 <= i < |RANGE_BLOCKS| ==> RANGE_BLOCKS[i] != COMMON_BLOCK
    ensures forall b: byte, i, j :: 0 <= i < j < 9 ==> RangeSlots(b)[i].index != RangeSlots(b)[j].index
    ensures forall b: byte, i :: 0 <= i < 9 ==> RangeSlots(b)[i].index != INDEX_RANGE_IS_SET
  {
  }

  // ---------------------------------------------------------------------------------------------
  // the record

  datatype RangeCalib = RangeCalib(
    zero: Value, span: Value,
    linearB: Value, linearC: Value,
    alphaLow: Value, alphaHigh: Value,
    betaA: Value, betaO: Value,
    tCal: Value)

  datatype Calib = Calib(
    ndirSerial: Value, boardSerial: Value,
    selectedRange: Value,
    lampVoltage: Value,
    lampPeriod: Value, sampleStart: Value, sampleEnd: Value,
    rangeIaq: Option<RangeCalib>, rangeSafety: Option<RangeCalib>, rangeCombustion: Option<RangeCalib>,
    rangeIndustrial: Option<RangeCalib>, rangeCustom: Option<RangeCalib>)

  /** The coefficients in slot order. */
  function Coefficients(r: RangeCalib): (vs: seq<Value>)
    ensures |vs| == 9
  {
    [r.zero, r.span, r.linearB, r.linearC, r.alphaLow, r.alphaHigh, r.betaA, r.betaO, r.tCal]
  }

  function RangeOf(vs: seq<Value>): (r: RangeCalib)
    requires |vs| == 9
    ensures Coefficients(r) == vs
  {
    RangeCalib(vs[0], vs[1], vs[2], vs[3], vs[4], vs[5], vs[6], vs[7], vs[8])
  }

  /** The common fields in slot order. */
  function CommonFields(c: Calib): (vs: seq<Value>)
    ensures |vs| == |COMMON_SLOTS|
  {
    [c.ndirSerial, c.boardSerial, c.selectedRange, c.lampVoltage, c.lampPeriod, c.sampleStart, c.sampleEnd]
  }

  /** The ranges in block order. */
  function Ranges(c: Calib): (rs: seq<Option<RangeCalib>>)
    ensures |rs| == |RANGE_BLOCKS|
  {
    [c.rangeIaq, c.rangeSafety, c.rangeCombustion, c.rangeIndustrial, c.rangeCustom]
  }

  function CalibOf(common: seq<Value>, ranges: seq<Option<RangeCalib>>): (c: Calib)
    requires |common| == |COMMON_SLOTS| && |ranges| == |RANGE_BLOCKS|
    ensures CommonFields(c) == common && Ranges(c) == ranges
  {
    Calib(common[0], common[1], common[2], common[3], common[4], common[5], common[6],
      ranges[0], ranges[1], ranges[2], ranges[3], ranges[4])
  }

  lemma CalibOfFields(c: Calib)
    ensures CalibOf(CommonFields(c), Ranges(c)) == c
  {
  }

  // ---------------------------------------------------------------------------------------------
  // JSON form

  const RANGE_KEYS: seq<string> :=
    ["zero", "span", "linear-b", "linear-c", "alpha-low", "alpha-high", "beta-a", "beta-o", "t-cal"]

  const CALIB_KEYS: seq<string> :=
    ["ndir-serial", "board-serial", "selected-range", "lamp-voltage", "lamp-period", "sample-start", "sample-end",
     "range-iaq", "range-safety", "range-combustion", "range-industrial", "range-custom"]

  /** `NDIRRangeCalib.as_json`: the nine coefficients under RANGE_KEYS. */
  function RangeAsJson(r: RangeCalib): (j: Json)
    ensures j.Obj? && Keys(j.members) == RANGE_KEYS
  {
    Obj(Zip(RANGE_KEYS, [Leaf(r.zero), Leaf(r.span), Leaf(r.linearB), Leaf(r.linearC), Leaf(r.alphaLow),
      Leaf(r.alphaHigh), Leaf(r.betaA), Leaf(r.betaO), Leaf(r.tCal)]))
  }

  /** A range as its JSON member: null for an absent range. */
  function OptionalRangeAsJson(r: Option<RangeCalib>): (j: Json)
    ensures r.None? <==> j == Leaf(Absent)
  {
    if r.None? then Leaf(Absent) else RangeAsJson(r.value)
  }

  /** The range built from what `get` found under each of RANGE_KEYS; each value keeps its JSON type (`Datum.float` is not modelled). */
  function RangeFromMembers(js: seq<Json>): (r: Result<RangeCalib, Malformed>)
    requires |js| == |RANGE_KEYS|
    ensures r.Success? <==> forall i :: 0 <= i < |js| ==> js[i].Leaf?
    ensures r.Success? ==> Coefficients(r.value) == seq(9, i requires 0 <= i < 9 => js[i].v)
  {
    var zero :- Scalar(js[0], RANGE_KEYS[0]);
    var span :- Scalar(js[1], RANGE_KEYS[1]);
    var linearB :- Scalar(js[2], RANGE_KEYS[2]);
    var linearC :- Scalar(js[3], RANGE_KEYS[3]);
    var alphaLow :- Scalar(js[4], RANGE_KEYS[4]);
    var alphaHigh :- Scalar(js[5], RANGE_KEYS[5]);
    var betaA :- Scalar(js[6], RANGE_KEYS[6]);
    var betaO :- Scalar(js[7], RANGE_KEYS[7]);
    var tCal :- Scalar(js[8], RANGE_KEYS[8]);
    Success(RangeCalib(zero, span, linearB, linearC, alphaLow, alphaHigh, betaA, betaO, tCal))
  }

  /** `NDIRRangeCalib.construct_from_jdict`: a falsy member is an absent range. */
  function RangeFromJson(j: Json): (r: Result<Option<RangeCalib>, Malformed>)
    ensures Falsy(j) ==> r == Success(None)
    ensures !Falsy(j) && j.Leaf? ==> r == Failure(NotAnObject)
    ensures j.Obj? && j.members != [] ==> r.Success? ==> r.value.Some?
  {
    if Falsy(j) then Success(None)
    else if j.Leaf? then Failure(NotAnObject)
    else
      var range :- RangeFromMembers(Lookups(j.members, RANGE_KEYS));
      Success(Some(range))
  }

  /** The values `NDIRCalib.as_json` writes, in order. */
  function CalibMembers(c: Calib): (js: seq<Json>)
    ensures |js| == |CALIB_KEYS|
  {
    [Leaf(c.ndirSerial), Leaf(c.boardSerial), Leaf(c.selectedRange), Leaf(c.lampVoltage),
     Leaf(c.lampPeriod), Leaf(c.sampleStart), Leaf(c.sampleEnd),
     OptionalRangeAsJson(c.rangeIaq), OptionalRangeAsJson(c.rangeSafety), OptionalRangeAsJson(c.rangeCombustion),
     OptionalRangeAsJson(c.rangeIndustrial), OptionalRangeAsJson(c.rangeCustom)]
  }

  /** `NDIRCalib.as_json`: the twelve fields under CALIB_KEYS. */
  function CalibAsJson(c: Calib): (j: Json)
    ensures j.Obj? && Keys(j.members) == CALIB_KEYS
  {
    Obj(Zip(CALIB_KEYS, CalibMembers(c)))
  }

  /** The record built from what `get` found under each of CALIB_KEYS; each value keeps its JSON type (`Datum.int` and `Datum.float` are not modelled). */
  function CalibFromMembers(js: seq<Json>): (r: Result<Calib, Malformed>)
    requires |js| == |CALIB_KEYS|
  {
    var ndirSerial :- Scalar(js[0], CALIB_KEYS[0]);
    var boardSerial :- Scalar(js[1], CALIB_KEYS[1]);
    var selectedRange :- Scalar(js[2], CALIB_KEYS[2]);
    var lampVoltage :- Scalar(js[3], CALIB_KEYS[3]);
    var lampPeriod :- Scalar(js[4], CALIB_KEYS[4]);
    var sampleStart :- Scalar(js[5], CALIB_KEYS[5]);
    var sampleEnd :- Scalar(js[6], CALIB_KEYS[6]);
    var rangeIaq :- RangeFromJson(js[7]);
    var rangeSafety :- RangeFromJson(js[8]);
    var rangeCombustion :- RangeFromJson(js[9]);
    var rangeIndustrial :- RangeFromJson(js[10]);
    var rangeCustom :- RangeFromJson(js[11]);
    Success(Calib(ndirSerial, boardSerial, selectedRange, lampVoltage, lampPeriod, sampleStart, sampleEnd,
      rangeIaq, rangeSafety, rangeCombustion, rangeIndustrial, rangeCustom))
  }

  /** `NDIRCalib.construct_from_jdict`: None for a falsy document. */
  function CalibFromJson(j: Json): (r: Result<Option<Calib>, Malformed>)
    ensures Falsy(j) ==> r == Success(None)
    ensures !Falsy(j) && j.Leaf? ==> r == Failure(NotAnObject)
    ensures j.Obj? && j.members != [] ==> r.Success? ==> r.value.Some?
  {
    if Falsy(j) then Success(None)
    else if j.Leaf? then Failure(NotAnObject)
    else
      var calib :- CalibFromMembers(Lookups(j.members, CALIB_KEYS));
      Success(Some(calib))
  }

  lemma RangeKeysDistinct()
    ensures Distinct(RANGE_KEYS)
  {
  }

  lemma CalibKeysDistinct()
    ensures Distinct(CALIB_KEYS)
  {
  }

  /** A range survives its JSON form; an absent range stays absent. */
  lemma RangeJsonRoundTrip(r: Option<RangeCalib>)
    ensures RangeFromJson(OptionalRangeAsJson(r)) == Success(r)
  {
    if r.Some? {
      var rc := r.value;
      var js := [Leaf(rc.zero), Leaf(rc.span), Leaf(rc.linearB), Leaf(rc.linearC), Leaf(rc.alphaLow),
        Leaf(rc.alphaHigh), Leaf(rc.betaA), Leaf(rc.betaO), Leaf(rc.tCal)];
      RangeKeysDistinct();
      LookupsZip(RANGE_KEYS, js);
      assert RangeFromMembers(js) == Success(rc);
    }
  }

  /** A record survives its JSON form. */
  lemma CalibJsonRoundTrip(c: Calib)
    ensures CalibFromJson(CalibAsJson(c)) == Success(Some(c))
  {
    var js := CalibMembers(c);
    assert Lookups(CalibAsJson(c).members, CALIB_KEYS) == js by {
      CalibKeysDistinct();
      LookupsZip(CALIB_KEYS, js);
    }
    MembersRoundTrip(c);
  }

  /** The values as_json writes build the record back. */
  lemma MembersRoundTrip(c: Calib)
    ensures CalibFromMembers(CalibMembers(c)) == Success(c)
  {
    var js := CalibMembers(c);
    RangeJsonRoundTrip(c.rangeIaq);
    RangeJsonRoundTrip(c.rangeSafety);
    RangeJsonRoundTrip(c.rangeCombustion);
    RangeJsonRoundTrip(c.rangeIndustrial);
    RangeJsonRoundTrip(c.rangeCustom);
    assert RangeFromJson(js[7]) == Success(c.rangeIaq);
    assert RangeFromJson(js[8]) == Success(c.rangeSafety);
    assert RangeFromJson(js[9]) == Success(c.rangeCombustion);
    assert RangeFromJson(js[10]) == Success(c.rangeIndustrial);
    assert RangeFromJson(js[11]) == Success(c.rangeCustom);
  }

  /** The record reads no key but the twelve that as_json writes. */
  lemma CalibReadsOnlyItsKeys(m: seq<(string, Json)>, m': seq<(string, Json)>)
    requires m != [] && m' != [] && Agree(m, m', CALIB_KEYS)
    ensures CalibFromJson(Obj(m)) == CalibFromJson(Obj(m'))
  {
    assert Lookups(m, CALIB_KEYS) == Lookups(m', CALIB_KEYS);
  }

  // ---------------------------------------------------------------------------------------------
  // the default record

  /** The IAQ range of the template; its floats are the binary32 words the JSON numbers round to. */
  const IAQ_RANGE: seq<Json> := [
    Leaf(Real(0x3f96_978d)), Leaf(Real(0x3e61_9653)),   // zero 1.1765, span 0.2203
    Leaf(Real(0x39aa_64c3)), Leaf(Real(0x3f6f_b15b)),   // linear-b 0.000325, linear-c 0.9363
    Leaf(Real(0x39dc_3372)), Leaf(Real(0x39dc_3372)),   // alpha-low, alpha-high 0.00042
    Leaf(Real(0x3727_c5ac)), Leaf(Real(0x3727_c5ac)),   // beta-a, beta-o 1e-05
    Leaf(Real(0x4222_0000))]                            // t-cal 40.5

  /** The values of the template document, in key order. */
  const IAQ_MEMBERS: seq<Json> := [
    Leaf(Int(12700000)), Leaf(Int(1000000)), Leaf(Int(1)),
    Leaf(Real(0x4090_0000)),                            // lamp-voltage 4.5
    Leaf(Int(1000)), Leaf(Int(400)), Leaf(Int(990)),
    Obj(Zip(RANGE_KEYS, IAQ_RANGE)),
    Leaf(Absent), Leaf(Absent), Leaf(Absent), Leaf(Absent)]

  /** `CALIB_IAQ`: the template document. */
  const CALIB_IAQ: Json := Obj(Zip(CALIB_KEYS, IAQ_MEMBERS))

  /** `NDIRCalib.default()`: the record the template document constructs, with only the IAQ range present. */
  function Default(): (c: Calib)
    ensures CalibFromJson(CALIB_IAQ) == Success(Some(c))
    ensures c.rangeIaq.Some? && c.rangeSafety.None? && c.rangeCombustion.None? && c.rangeIndustrial.None? && c.rangeCustom.None?
  {
    var iaq := RangeCalib(IAQ_RANGE[0].v, IAQ_RANGE[1].v, IAQ_RANGE[2].v, IAQ_RANGE[3].v, IAQ_RANGE[4].v,
      IAQ_RANGE[5].v, IAQ_RANGE[6].v, IAQ_RANGE[7].v, IAQ_RANGE[8].v);
    var c := Calib(Int(12700000), Int(1000000), Int(1), Real(0x4090_0000), Int(1000), Int(400), Int(990),
      Some(iaq), None, None, None, None);
    assert CalibMembers(c) == IAQ_MEMBERS;
    CalibJsonRoundTrip(c);
    c
  }
}
