/**
 * The older single-range calibration record of the `NDIR` driver
 * (src/scs_ndir/gas/ndir_calib.py): fifteen fields at EEPROM indices 0 to
 * 14, and their JSON form.
 */
module FlatCalib {
  import opened Wrappers
  import opened Fields
  import opened Jsonable

  const SPAN_IAQ: nat := 1
  const SPAN_SAFETY: nat := 2
  const SPAN_COMBUSTION: nat := 3
  const SPAN_INDUSTRIAL: nat := 4

  const INDEX_LAMP_VOLTAGE: nat := 0
  const INDEX_LAMP_PERIOD: nat := 1
  const INDEX_MAX_DEFERRAL: nat := 2
  const INDEX_MIN_DEFERRAL: nat := 3
  const INDEX_SPAN: nat := 4
  const INDEX_LINEAR_B: nat := 5
  const INDEX_LINEAR_C: nat := 6
  const INDEX_TEMP_BETA_O: nat := 7
  const INDEX_TEMP_ALPHA: nat := 8
  const INDEX_TEMP_BETA_A: nat := 9
  const INDEX_THERM_A: nat := 10
  const INDEX_THERM_B: nat := 11
  const INDEX_THERM_C: nat := 12
  const INDEX_THERM_D: nat := 13
  const INDEX_T_CAL: nat := 14

  /** The indices in field order. */
  const FIELD_INDICES: seq<nat> := [
    INDEX_LAMP_VOLTAGE, INDEX_LAMP_PERIOD, INDEX_MAX_DEFERRAL, INDEX_MIN_DEFERRAL, INDEX_SPAN,
    INDEX_LINEAR_B, INDEX_LINEAR_C, INDEX_TEMP_BETA_O, INDEX_TEMP_ALPHA, INDEX_TEMP_BETA_A,
    INDEX_THERM_A, INDEX_THERM_B, INDEX_THERM_C, INDEX_THERM_D, INDEX_T_CAL]

  /** Each field sits at its own position, so no two share an index. */
  lemma IndicesArePositions()
    ensures |FIELD_INDICES| == 15
    ensures forall i :: 0 <= i < 15 ==> FIELD_INDICES[i] == i
    ensures forall i, j :: 0 <= i < j < 15 ==> FIELD_INDICES[i] != FIELD_INDICES[j]
  {
  }

  datatype Calib = Calib(
    lampVoltage: Value, lampPeriod: Value,
    maxDeferral: Value, minDeferral: Value,
    span: Value,
    linearB: Value, linearC: Value,
    tempBetaO: Value, tempAlpha: Value, tempBetaA: Value,
    thermA: Value, thermB: Value, thermC: Value, thermD: Value,
    tCal: Value)

  const KEYS: seq<string> := [
    "lamp-voltage", "lamp-period", "max-deferral", "min-deferral", "span", "linear-b", "linear-c",
    "temp-beta-o", "temp-alpha", "temp-beta-a", "therm-a", "therm-b", "therm-c", "therm-d", "t-cal"]

  lemma KeysDistinct()
    ensures Distinct(KEYS)
  {
  }

  /** The fields in index order. */
  function FieldValues(c: Calib): (vs: seq<Value>)
    ensures |vs| == |KEYS|
  {
    [c.lampVoltage, c.lampPeriod, c.maxDeferral, c.minDeferral, c.span, c.linearB, c.linearC,
     c.tempBetaO, c.tempAlpha, c.tempBetaA, c.thermA, c.thermB, c.thermC, c.thermD, c.tCal]
  }

  function Leaves(vs: seq<Value>): (js: seq<Json>)
    ensures |js| == |vs| && forall i :: 0 <= i < |vs| ==> js[i] == Leaf(vs[i])
  {
    seq(|vs|, i requires 0 <= i < |vs| => Leaf(vs[i]))
  }

  /** `as_json`: the fifteen fields under KEYS, in index order. */
  function AsJson(c: Calib): (j: Json)
    ensures j.Obj? && Keys(j.members) == KEYS
  {
    Obj(Zip(KEYS, Leaves(FieldValues(c))))
  }

  /**
   * The record built from what `get` found under each of KEYS. Each value
   * keeps the JSON type it arrived with: the constructor's `Datum.float` of
   * eleven fields is not modelled, and an object is refused in every field.
   */
  function FromMembers(js: seq<Json>): (r: Result<Calib, Malformed>)
    requires |js| == |KEYS|
    ensures r.Success? <==> forall i :: 0 <= i < |js| ==> js[i].Leaf?
    ensures r.Success? ==> FieldValues(r.value) == seq(|js|, i requires 0 <= i < |js| => js[i].v)
  {
    var lampVoltage :- Scalar(js[0], KEYS[0]);
    var lampPeriod :- Scalar(js[1], KEYS[1]);
    var maxDeferral :- Scalar(js[2], KEYS[2]);
    var minDeferral :- Scalar(js[3], KEYS[3]);
    var span :- Scalar(js[4], KEYS[4]);
    var linearB :- Scalar(js[5], KEYS[5]);
    var linearC :- Scalar(js[6], KEYS[6]);
    var tempBetaO :- Scalar(js[7], KEYS[7]);
    var tempAlpha :- Scalar(js[8], KEYS[8]);
    var tempBetaA :- Scalar(js[9], KEYS[9]);
    var thermA :- Scalar(js[10], KEYS[10]);
    var thermB :- Scalar(js[11], KEYS[11]);
    var thermC :- Scalar(js[12], KEYS[12]);
    var thermD :- Scalar(js[13], KEYS[13]);
    var tCal :- Scalar(js[14], KEYS[14]);
    Success(Calib(lampVoltage, lampPeriod, maxDeferral, minDeferral, span, linearB, linearC,
      tempBetaO, tempAlpha, tempBetaA, thermA, thermB, thermC, thermD, tCal))
  }

  /** `construct_from_jdict`: None for a falsy document. */
  function FromJson(j: Json): (r: Result<Option<Calib>, Malformed>)
    ensures Falsy(j) ==> r == Success(None)
    ensures !Falsy(j) && j.Leaf? ==> r == Failure(NotAnObject)
    ensures j.Obj? && j.members != [] ==> r.Success? ==> r.value.Some?
  {
    if Falsy(j) then Success(None)
    else if j.Leaf? then Failure(NotAnObject)
    else
      var calib :- FromMembers(Lookups(j.members, KEYS));
      Success(Some(calib))
  }

  /** A record survives its JSON form. */
  lemma JsonRoundTrip(c: Calib)
    ensures FromJson(AsJson(c)) == Success(Some(c))
  {
    var js := Leaves(FieldValues(c));
    assert Lookups(AsJson(c).members, KEYS) == js by {
      KeysDistinct();
      LookupsZip(KEYS, js);
    }
    MembersRoundTrip(c);
  }

  /** The values as_json writes build the record back. */
  lemma MembersRoundTrip(c: Calib)
    ensures FromMembers(Leaves(FieldValues(c))) == Success(c)
  {
    var js := Leaves(FieldValues(c));
    assert forall i :: 0 <= i < |js| ==> js[i].Leaf?;
    assert FieldValues(FromMembers(js).value) == FieldValues(c);
  }

  /** The record reads no key but the fifteen that as_json writes. */
  lemma ReadsOnlyItsKeys(m: seq<(string, Json)>, m': seq<(string, Json)>)
    requires m != [] && m' != [] && Agree(m, m', KEYS)
    ensures FromJson(Obj(m)) == FromJson(Obj(m'))
  {
    assert Lookups(m, KEYS) == Lookups(m', KEYS);
  }

  /** `CALIB_IAQ`, with its floats as the binary32 words the JSON numbers round to. */
  const IAQ_VALUES: seq<Value> := [
    Real(0x40a0_0000), Int(1000), Int(200), Int(740), Int(1),   // lamp-voltage 5.0
    Real(0x39aa_64c3), Real(0x3f6f_b15b),                       // linear-b 0.000325, linear-c 0.9363
    Real(0x3727_c5ac), Real(0x3a12_ccf7), Real(0x3727_c5ac),    // temp-beta-o 0.00001, temp-alpha 0.00056, temp-beta-a
    Real(0), Real(0), Real(0), Real(0),                         // therm-a .. therm-d 0.0
    Real(0x3f80_0000)]                                          // t-cal 1.0

  const CALIB_IAQ: Json := Obj(Zip(KEYS, Leaves(IAQ_VALUES)))

  /** The template's record: lamp period 1000, deferrals 200 and 740, span 1. */
  lemma TemplateTimings()
    ensures var c := FromJson(CALIB_IAQ);
      c.Success? && c.value.Some? &&
      c.value.value.lampPeriod == Int(1000) && c.value.value.maxDeferral == Int(200) &&
      c.value.value.minDeferral == Int(740) && c.value.value.span == Int(1)
  {
    var c := Calib(IAQ_VALUES[0], IAQ_VALUES[1], IAQ_VALUES[2], IAQ_VALUES[3], IAQ_VALUES[4], IAQ_VALUES[5],
      IAQ_VALUES[6], IAQ_VALUES[7], IAQ_VALUES[8], IAQ_VALUES[9], IAQ_VALUES[10], IAQ_VALUES[11],
      IAQ_VALUES[12], IAQ_VALUES[13], IAQ_VALUES[14]);
    assert FieldValues(c) == IAQ_VALUES;
    JsonRoundTrip(c);
  }
}
