/**
 * The public operations the SPI driver classes share, each run under the
 * host lock: the getters that send one command and slice its response into
 * fields, the status report, commands sent for their effect alone, the reset
 * sequence, the arbitrary test command, and the parts of `record_raw` every
 * dialect has in common (its parameter block and its playback).
 *
 * Each operation has a specification on a World and a method on an Engine
 * proved against it; the lock is released on every path.
 */
module Operations {
  import opened Wrappers
  import opened Bytes
  import opened Commands
  import opened Bus
  import opened Transact
  import opened Fields
  import opened Engine

  // ---------------------------------------------------------------------------------------------
  // getters

  /** How a getter reads its response: field after field from the front, or the whole response as one field. */
  datatype Decoding = Slices(layout: seq<Kind>) | Entire(kind: Kind)

  /** A getter: the command it sends, with no parameters, and how it decodes the answer. */
  datatype Getter = Getter(name: string, decoding: Decoding)

  const FLOAT_TRIPLE: seq<Kind> := [F32, F32, F32]
  const OFFSET_QUAD: seq<Kind> := [U16, U16, U16, U16]

  /** `sample` (`get_sample_gas` in t1f1): concentration, concentration with ideal-gas law, temperature. */
  const SAMPLE_GAS := Getter("sg", Slices(FLOAT_TRIPLE))
  /** `get_sample_raw`: pile reference and active amplitudes, thermistor average. */
  const SAMPLE_RAW := Getter("sr", Slices(SHORT_RECORD))
  /** `get_sample_voltage`: the same three as voltages. */
  const SAMPLE_VOLTAGE := Getter("sv", Slices(FLOAT_TRIPLE))
  /** `get_sample_offsets`: minimum and maximum reference and active offsets. */
  const SAMPLE_OFFSETS := Getter("so", Slices(OFFSET_QUAD))
  /** `measure_raw`: pile reference, pile active and thermistor values. */
  const MEASURE_RAW := Getter("mr", Slices(SHORT_RECORD))
  /** `measure_voltage`: the same three as voltages. */
  const MEASURE_VOLTAGE := Getter("mv", Slices(FLOAT_TRIPLE))
  /** x1 `pressure`: the barometric pressure. */
  const PRESSURE := Getter("sp", Slices([F32]))
  /** t1f1 `get_sample_pressure`: the barometric pressure. */
  const SAMPLE_PRESSURE := Getter("sb", Slices([F32]))
  /** `input_raw`: the supply voltage as a raw count. */
  const INPUT_RAW := Getter("ir", Entire(U16))
  /** `input_voltage`: the supply voltage. */
  const INPUT_VOLTAGE := Getter("iv", Entire(F32))

  /** The getters each dialect's driver class offers. */
  function Getters(f: Family): seq<Getter>
  {
    match f
    case X1 => [SAMPLE_GAS, PRESSURE, SAMPLE_RAW, SAMPLE_VOLTAGE, SAMPLE_OFFSETS, MEASURE_RAW, MEASURE_VOLTAGE, INPUT_RAW, INPUT_VOLTAGE]
    case V1 => [SAMPLE_GAS, SAMPLE_RAW, SAMPLE_VOLTAGE, SAMPLE_OFFSETS, MEASURE_RAW, MEASURE_VOLTAGE, INPUT_RAW, INPUT_VOLTAGE]
    case T1F1 => [SAMPLE_GAS, SAMPLE_RAW, SAMPLE_VOLTAGE, SAMPLE_OFFSETS, SAMPLE_PRESSURE, MEASURE_RAW, MEASURE_VOLTAGE, INPUT_RAW, INPUT_VOLTAGE]
    case Ndir => [SAMPLE_GAS, SAMPLE_RAW, SAMPLE_VOLTAGE, MEASURE_RAW, MEASURE_VOLTAGE, INPUT_RAW, INPUT_VOLTAGE]
  }

  /** The number of response bytes a decoding consumes. */
  function ByteCount(dec: Decoding): nat
  {
    match dec
    case Slices(layout) => Size(layout)
    case Entire(k) => Width(k)
  }

  /** The number of values a decoding yields. */
  function Arity(dec: Decoding): nat
  {
    match dec
    case Slices(layout) => |layout|
    case Entire(_) => 1
  }

  /** The getter's decoding step: a response of the wrong shape raises. */
  function Decoded(p: Payload, dec: Decoding): (r: Result<seq<Value>, Fault>)
    ensures r.Success? ==> |r.value| == Arity(dec)
    ensures r.Success? ==> p.Many? && ByteCount(dec) <= |p.bs|
  {
    match dec
    case Slices(layout) => Sliced(p, layout)
    case Entire(k) =>
      match Whole(p, k)
      case Success(v) => Success([v])
      case Failure(e) => Failure(e)
  }

  /** The inverse of a decoding: the values encoded back into response bytes; None when one does not fit. */
  function Packed(dec: Decoding, vs: seq<Value>): Option<seq<byte>>
  {
    match dec
    case Slices(layout) => if |vs| == |layout| then Pack(layout, vs) else None
    case Entire(k) => if |vs| == 1 then Encode(k, vs[0]) else None
  }

  /** What a getter decodes packs back to the bytes it was decoded from. */
  lemma DecodedInverts(p: Payload, dec: Decoding)
    requires Decoded(p, dec).Success?
    ensures Packed(dec, Decoded(p, dec).value) == Some(p.bs[..ByteCount(dec)])
  {
    match dec
    case Slices(layout) =>
      SlicedInverts(p, layout);
    case Entire(k) =>
      WholeInverts(p, k);
      assert p.bs[..Width(k)] == p.bs;
  }

  /** A getter: `find(name)`, `_transact(cmd)`, then decode the response. */
  function GetSpec(w: World, d: Dialect, g: Getter): Outcome<seq<Value>>
  {
    var o := RunSpec(w, d, g.name, None, None);
    match o.result
    case Failure(e) => Outcome(o.world, Failure(e))
    case Success(p) => Outcome(o.world, Decoded(p, g.decoding))
  }

  /**
   * When the device accepts a getter's command and the table's return count
   * is the decoder's byte count, the getter succeeds, and what it returns is
   * the decoding of exactly the bytes the device clocked out after the status
   * byte: they pack back to those bytes.
   */
  lemma GetterReadsItsBytes(w: World, d: Dialect, g: Getter)
    requires Lookup(w.commands, g.name).Success?
    requires NameBytes(Lookup(w.commands, g.name).value.name).Some?
    requires Classify(d, Clocked(w.link.incoming, 1)[0]).None?
    requires ByteCount(g.decoding) >= 2
    requires Lookup(w.commands, g.name).value.returnCount == Some(ByteCount(g.decoding) as int)
    ensures var o := GetSpec(w, d, g);
      o.result.Success? && o.world.commands == w.commands &&
      Packed(g.decoding, o.result.value) == Some(Clocked(w.link.incoming, 1 + ByteCount(g.decoding))[1..])
  {
    var cmd := Lookup(w.commands, g.name).value;
    var n := ByteCount(g.decoding);
    ReadsExactlyCount(w.link, d, cmd, None, None);
    var payload := Clocked(w.link.incoming, 1 + n)[1..];
    assert TransactSpec(w.link, d, cmd, None, None).result == Success(Many(payload));
    DecodedInverts(Many(payload), g.decoding);
    assert payload[..n] == payload;
  }

  /** A status the dialect rejects reaches the caller as the dialect's exception; nothing is decoded. */
  lemma GetterRejected(w: World, d: Dialect, g: Getter)
    requires Lookup(w.commands, g.name).Success?
    requires NameBytes(Lookup(w.commands, g.name).value.name).Some?
    requires Classify(d, Clocked(w.link.incoming, 1)[0]).Some?
    ensures var status := Clocked(w.link.incoming, 1)[0];
      GetSpec(w, d, g).result ==
        Failure(Rejected(Classify(d, status).value, status, Lookup(w.commands, g.name).value, (None, None)))
  {
    ErrorStatusReadsNoPayload(w.link, d, Lookup(w.commands, g.name).value, None, None);
  }

  /** In a table built from `entries`, the entry at `i` is found under its name when no later entry shares it. */
  lemma {:induction false} DictFinds(entries: seq<Command>, i: nat)
    requires i < |entries|
    requires forall j :: i < j < |entries| ==> entries[j].name != entries[i].name
    ensures entries[i].name in Dict(entries) && Dict(entries)[entries[i].name] == entries[i]
    decreases |entries|
  {
    var last := |entries| - 1;
    if i < last {
      var front := entries[..last];
      assert front[i] == entries[i];
      DictFinds(front, i);
    }
  }

  /** A getter is sized for a family when its command is in the fresh table with exactly its byte count. */
  predicate Sized(f: Family, g: Getter)
  {
    g.name in Static(f) && Static(f)[g.name].name == g.name &&
    Static(f)[g.name].returnCount == Some(ByteCount(g.decoding) as int) &&
    ByteCount(g.decoding) >= 2 && NameBytes(g.name).Some?
  }

  /** The getter found at entry `j` of the family's table. */
  lemma SizedAt(f: Family, g: Getter, j: nat)
    requires j < |Entries(f)| && Entries(f)[j].name == g.name
    requires forall k :: j < k < |Entries(f)| ==> Entries(f)[k].name != g.name
    requires Entries(f)[j].returnCount == Some(ByteCount(g.decoding) as int)
    requires ByteCount(g.decoding) >= 2 && |g.name| == 2 && g.name[0] as int < 0x100 && g.name[1] as int < 0x100
    ensures Sized(f, g)
  {
    DictFinds(Entries(f), j);
  }

  lemma LayoutCounts()
    ensures ByteCount(SAMPLE_GAS.decoding) == 12 && ByteCount(SAMPLE_VOLTAGE.decoding) == 12
    ensures ByteCount(MEASURE_VOLTAGE.decoding) == 12 && ByteCount(SAMPLE_RAW.decoding) == 6
    ensures ByteCount(MEASURE_RAW.decoding) == 6 && ByteCount(SAMPLE_OFFSETS.decoding) == 8
    ensures ByteCount(PRESSURE.decoding) == 4 && ByteCount(SAMPLE_PRESSURE.decoding) == 4
    ensures ByteCount(INPUT_RAW.decoding) == 2 && ByteCount(INPUT_VOLTAGE.decoding) == 4
  {
    RecordSizes();
    assert FLOAT_TRIPLE[1..][1..][1..] == [];
    assert OFFSET_QUAD[1..][1..][1..][1..] == [];
    assert [F32][1..] == [];
  }

  lemma X1GettersSized()
    ensures forall i :: 0 <= i < |Getters(X1)| ==> Sized(X1, Getters(X1)[i])
  {
    X1Gas();
    X1Pressure();
    X1Raw();
    X1Voltage();
    X1Offsets();
    X1MeasureRaw();
    X1MeasureVoltage();
    X1InputRaw();
    X1InputVoltage();
  }

  lemma X1Gas()
    ensures Sized(X1, SAMPLE_GAS)
  {
    LayoutCounts();
    SizedAt(X1, SAMPLE_GAS, 21);
  }

  lemma X1Pressure()
    ensures Sized(X1, PRESSURE)
  {
    LayoutCounts();
    SizedAt(X1, PRESSURE, 23);
  }

  lemma X1Raw()
    ensures Sized(X1, SAMPLE_RAW)
  {
    LayoutCounts();
    SizedAt(X1, SAMPLE_RAW, 19);
  }

  lemma X1Voltage()
    ensures Sized(X1, SAMPLE_VOLTAGE)
  {
    LayoutCounts();
    SizedAt(X1, SAMPLE_VOLTAGE, 20);
  }

  lemma X1Offsets()
    ensures Sized(X1, SAMPLE_OFFSETS)
  {
    LayoutCounts();
    SizedAt(X1, SAMPLE_OFFSETS, 22);
  }

  lemma X1MeasureRaw()
    ensures Sized(X1, MEASURE_RAW)
  {
    LayoutCounts();
    SizedAt(X1, MEASURE_RAW, 14);
  }

  lemma X1MeasureVoltage()
    ensures Sized(X1, MEASURE_VOLTAGE)
  {
    LayoutCounts();
    SizedAt(X1, MEASURE_VOLTAGE, 15);
  }

  lemma X1InputRaw()
    ensures Sized(X1, INPUT_RAW)
  {
    LayoutCounts();
    SizedAt(X1, INPUT_RAW, 11);
  }

  lemma X1InputVoltage()
    ensures Sized(X1, INPUT_VOLTAGE)
  {
    LayoutCounts();
    SizedAt(X1, INPUT_VOLTAGE, 12);
  }

  lemma V1GettersSized()
    ensures forall i :: 0 <= i < |Getters(V1)| ==> Sized(V1, Getters(V1)[i])
  {
    V1Gas();
    V1Raw();
    V1Voltage();
    V1Offsets();
    V1MeasureRaw();
    V1MeasureVoltage();
    V1InputRaw();
    V1InputVoltage();
  }

  lemma V1Gas()
    ensures Sized(V1, SAMPLE_GAS)
  {
    LayoutCounts();
    SizedAt(V1, SAMPLE_GAS, 21);
  }

  lemma V1Raw()
    ensures Sized(V1, SAMPLE_RAW)
  {
    LayoutCounts();
    SizedAt(V1, SAMPLE_RAW, 19);
  }

  lemma V1Voltage()
    ensures Sized(V1, SAMPLE_VOLTAGE)
  {
    LayoutCounts();
    SizedAt(V1, SAMPLE_VOLTAGE, 20);
  }

  lemma V1Offsets()
    ensures Sized(V1, SAMPLE_OFFSETS)
  {
    LayoutCounts();
    SizedAt(V1, SAMPLE_OFFSETS, 22);
  }

  lemma V1MeasureRaw()
    ensures Sized(V1, MEASURE_RAW)
  {
    LayoutCounts();
    SizedAt(V1, MEASURE_RAW, 14);
  }

  lemma V1MeasureVoltage()
    ensures Sized(V1, MEASURE_VOLTAGE)
  {
    LayoutCounts();
    SizedAt(V1, MEASURE_VOLTAGE, 15);
  }

  lemma V1InputRaw()
    ensures Sized(V1, INPUT_RAW)
  {
    LayoutCounts();
    SizedAt(V1, INPUT_RAW, 11);
  }

  lemma V1InputVoltage()
    ensures Sized(V1, INPUT_VOLTAGE)
  {
    LayoutCounts();
    SizedAt(V1, INPUT_VOLTAGE, 12);
  }

  lemma T1F1GettersSized()
    ensures forall i :: 0 <= i < |Getters(T1F1)| ==> Sized(T1F1, Getters(T1F1)[i])
  {
    T1F1Gas();
    T1F1Raw();
    T1F1Voltage();
    T1F1Offsets();
    T1F1Pressure();
    T1F1MeasureRaw();
    T1F1MeasureVoltage();
    T1F1InputRaw();
    T1F1InputVoltage();
  }

  lemma T1F1Gas()
    ensures Sized(T1F1, SAMPLE_GAS)
  {
    LayoutCounts();
    SizedAt(T1F1, SAMPLE_GAS, 20);
  }

  lemma T1F1Raw()
    ensures Sized(T1F1, SAMPLE_RAW)
  {
    LayoutCounts();
    SizedAt(T1F1, SAMPLE_RAW, 18);
  }

  lemma T1F1Voltage()
    ensures Sized(T1F1, SAMPLE_VOLTAGE)
  {
    LayoutCounts();
    SizedAt(T1F1, SAMPLE_VOLTAGE, 19);
  }

  lemma T1F1Offsets()
    ensures Sized(T1F1, SAMPLE_OFFSETS)
  {
    LayoutCounts();
    SizedAt(T1F1, SAMPLE_OFFSETS, 21);
  }

  lemma T1F1Pressure()
    ensures Sized(T1F1, SAMPLE_PRESSURE)
  {
    LayoutCounts();
    SizedAt(T1F1, SAMPLE_PRESSURE, 22);
  }

  lemma T1F1MeasureRaw()
    ensures Sized(T1F1, MEASURE_RAW)
  {
    LayoutCounts();
    SizedAt(T1F1, MEASURE_RAW, 13);
  }

  lemma T1F1MeasureVoltage()
    ensures Sized(T1F1, MEASURE_VOLTAGE)
  {
    LayoutCounts();
    SizedAt(T1F1, MEASURE_VOLTAGE, 14);
  }

  lemma T1F1InputRaw()
    ensures Sized(T1F1, INPUT_RAW)
  {
    LayoutCounts();
    SizedAt(T1F1, INPUT_RAW, 10);
  }

  lemma T1F1InputVoltage()
    ensures Sized(T1F1, INPUT_VOLTAGE)
  {
    LayoutCounts();
    SizedAt(T1F1, INPUT_VOLTAGE, 11);
  }

  lemma NdirGettersSized()
    ensures forall i :: 0 <= i < |Getters(Ndir)| ==> Sized(Ndir, Getters(Ndir)[i])
  {
    NdirGas();
    NdirRaw();
    NdirVoltage();
    NdirMeasureRaw();
    NdirMeasureVoltage();
    NdirInputRaw();
    NdirInputVoltage();
  }

  lemma NdirGas()
    ensures Sized(Ndir, SAMPLE_GAS)
  {
    LayoutCounts();
    SizedAt(Ndir, SAMPLE_GAS, 21);
  }

  lemma NdirRaw()
    ensures Sized(Ndir, SAMPLE_RAW)
  {
    LayoutCounts();
    SizedAt(Ndir, SAMPLE_RAW, 19);
  }

  lemma NdirVoltage()
    ensures Sized(Ndir, SAMPLE_VOLTAGE)
  {
    LayoutCounts();
    SizedAt(Ndir, SAMPLE_VOLTAGE, 20);
  }

  lemma NdirMeasureRaw()
    ensures Sized(Ndir, MEASURE_RAW)
  {
    LayoutCounts();
    SizedAt(Ndir, MEASURE_RAW, 14);
  }

  lemma NdirMeasureVoltage()
    ensures Sized(Ndir, MEASURE_VOLTAGE)
  {
    LayoutCounts();
    SizedAt(Ndir, MEASURE_VOLTAGE, 15);
  }

  lemma NdirInputRaw()
    ensures Sized(Ndir, INPUT_RAW)
  {
    LayoutCounts();
    SizedAt(Ndir, INPUT_RAW, 11);
  }

  lemma NdirInputVoltage()
    ensures Sized(Ndir, INPUT_VOLTAGE)
  {
    LayoutCounts();
    SizedAt(Ndir, INPUT_VOLTAGE, 12);
  }

  /**
   * On a freshly initialised table every getter a dialect offers decodes the
   * bytes the device clocked out after an accepted status byte, and they pack
   * back to those bytes.
   */
  lemma FreshGetterDecodes(f: Family, w: World, i: nat)
    requires w.commands == Some(Static(f)) && i < |Getters(f)|
    requires Classify(DialectOf(f), Clocked(w.link.incoming, 1)[0]).None?
    ensures var g := Getters(f)[i];
      var o := GetSpec(w, DialectOf(f), g);
      o.result.Success? && |o.result.value| == Arity(g.decoding) &&
      Packed(g.decoding, o.result.value) == Some(Clocked(w.link.incoming, 1 + ByteCount(g.decoding))[1..])
  {
    var g := Getters(f)[i];
    GettersSized(f, i);
    assert Lookup(w.commands, g.name) == Success(Static(f)[g.name]);
    GetterReadsItsBytes(w, DialectOf(f), g);
  }

  /** Every getter a dialect offers is sized for that dialect's table. */
  lemma GettersSized(f: Family, i: nat)
    requires i < |Getters(f)|
    ensures Sized(f, Getters(f)[i])
  {
    match f
    case X1 => X1GettersSized();
    case V1 => V1GettersSized();
    case T1F1 => T1F1GettersSized();
    case Ndir => NdirGettersSized();
  }

  /** A getter under the lock: `obtain_lock`, the getter, and `release_lock` in `finally`. */
  method Get(e: Engine, g: Getter) returns (r: Result<seq<Value>, Fault>)
    modifies e.port, e.lock
    ensures Outcome(e.Now(), r) == Guard(e.lock.contended, old(e.Now()), GetSpec(old(e.Now()), e.dialect, g))
    ensures !e.lock.held && e.lock.releases == old(e.lock.releases) + 1
  {
    var ok := e.lock.Obtain();
    if ok {
      r := GetHeld(e, g);
    } else {
      r := Failure(LockTimeout);
    }
    e.lock.Release();
  }

  method GetHeld(e: Engine, g: Getter) returns (r: Result<seq<Value>, Fault>)
    modifies e.port
    ensures Outcome(e.Now(), r) == GetSpec(old(e.Now()), e.dialect, g)
  {
    var response :- e.Run(g.name, None, None);
    r := Decoded(response, g.decoding);
  }

  // ---------------------------------------------------------------------------------------------
  // what every operation sends

  /** `name` is found in the table under its own name, and its two characters can be sent. */
  predicate Sendable(w: World, name: string)
  {
    Lookup(w.commands, name).Success? && Lookup(w.commands, name).value.name == name && NameBytes(name).Some?
  }

  /** One `find` and `_transact` writes exactly the command's frame and leaves the table as it was. */
  lemma RunSends(w: World, d: Dialect, name: string, p1: Option<seq<byte>>, p2: Option<seq<byte>>)
    requires Sendable(w, name)
    ensures var o := RunSpec(w, d, name, p1, p2);
      o.world.commands == w.commands &&
      Writes(o.world.link.trace) == Writes(w.link.trace) + Frame(NameBytes(name).value, p1, p2)
  {
    SendsFrame(w.link, d, Lookup(w.commands, name).value, p1, p2);
  }

  /** A fetch writes the read command's name and then the address, whatever its outcome. */
  lemma FetchSends(w: World, d: Dialect, name: string, address: seq<byte>, k: Kind)
    requires Sendable(w, name) && |address| > 0
    ensures Writes(FetchSpec(w, d, name, address, k).world.link.trace) == Writes(w.link.trace) + [NameBytes(name).value, address]
  {
    var cmd := Lookup(w.commands, name).value.(returnCount := Some(Width(k)));
    SendsFrame(w.link, d, cmd, Some(address), None);
    assert Frame(NameBytes(name).value, Some(address), None) == [NameBytes(name).value, address];
  }

  /** A settled command writes the same frame; the wait after it writes nothing. */
  lemma SettledSends(w: World, d: Dialect, name: string, p1: Option<seq<byte>>, p2: Option<seq<byte>>, extra: nat)
    requires Sendable(w, name)
    ensures var o := SettledSpec(w, d, name, p1, p2, extra);
      o.world.commands == w.commands &&
      Writes(o.world.link.trace) == Writes(w.link.trace) + Frame(NameBytes(name).value, p1, p2)
  {
    var cmd := Lookup(w.commands, name).value;
    var s := TransactSpec(w.link, d, cmd, p1, p2);
    SendsFrame(w.link, d, cmd, p1, p2);
    if s.result.Success? && cmd.executionTime.Some? {
      WritesAppend(s.link.trace, [Slept(cmd.executionTime.value + extra)]);
      WritesOne(Slept(cmd.executionTime.value + extra));
    }
  }

  // ---------------------------------------------------------------------------------------------
  // status

  /** `status()`: the watchdog flag, the input voltage and the uptime in seconds. */
  datatype Status = Status(watchdogReset: bool, pwrIn: Value, uptime: Value)

  /** `ws` read as a truth value, then the two readings; the first failure ends it. */
  function StatusSpec(w: World, d: Dialect): (o: Outcome<Status>)
    ensures o.result.Success? ==> Fits(F32, o.result.value.pwrIn) && Fits(U32, o.result.value.uptime)
  {
    var ws := RunSpec(w, d, "ws", None, None);
    match ws.result
    case Failure(e) => Outcome(ws.world, Failure(e))
    case Success(restart) => Readings(ws.world, d, Truthy(restart))
  }

  /** The rest of `status()`: `iv` decoded as a float, then `up` as an unsigned long. */
  function Readings(w: World, d: Dialect, watchdogReset: bool): (o: Outcome<Status>)
    ensures o.result.Success? ==> Fits(F32, o.result.value.pwrIn) && Fits(U32, o.result.value.uptime)
    ensures o.result.Success? ==> o.result.value.watchdogReset == watchdogReset
  {
    var iv := WholeSpec(w, d, "iv", F32);
    match iv.result
    case Failure(e) => Outcome(iv.world, Failure(e))
    case Success(pwrIn) =>
      var up := WholeSpec(iv.world, d, "up", U32);
      match up.result
      case Failure(e) => Outcome(up.world, Failure(e))
      case Success(seconds) => Outcome(up.world, Success(Status(watchdogReset, pwrIn, seconds)))
  }

  /**
   * A status report sends `ws`, `iv` and `up`, each as a bare name and in
   * that order. A rejected `ws` ends the report before anything else is sent.
   */
  lemma StatusSends(w: World, d: Dialect)
    requires Sendable(w, "ws") && Sendable(w, "iv") && Sendable(w, "up")
    ensures var o := StatusSpec(w, d);
      var ws := RunSpec(w, d, "ws", None, None);
      o.world.commands == w.commands &&
      (ws.result.Failure? ==> Writes(o.world.link.trace) == Writes(w.link.trace) + [NameBytes("ws").value]) &&
      (o.result.Success? ==>
        Writes(o.world.link.trace) == Writes(w.link.trace) + [NameBytes("ws").value, NameBytes("iv").value, NameBytes("up").value])
  {
    var ws := RunSpec(w, d, "ws", None, None);
    var a, b, c := NameBytes("ws").value, NameBytes("iv").value, NameBytes("up").value;
    RunSendsName(w, d, "ws");
    if ws.result.Success? {
      var rest := Readings(ws.world, d, Truthy(ws.result.value));
      ReadingsSend(ws.world, d, Truthy(ws.result.value));
      assert StatusSpec(w, d) == rest;
      if rest.result.Success? {
        WritesChain(w.link.trace, ws.world.link.trace, rest.world.link.trace, [a], [b, c]);
        assert [a] + [b, c] == [a, b, c];
      }
    }
  }

  lemma ReadingsSend(w: World, d: Dialect, watchdogReset: bool)
    requires Sendable(w, "iv") && Sendable(w, "up")
    ensures var o := Readings(w, d, watchdogReset);
      o.world.commands == w.commands &&
      (o.result.Success? ==> Writes(o.world.link.trace) == Writes(w.link.trace) + [NameBytes("iv").value, NameBytes("up").value])
  {
    var iv := RunSpec(w, d, "iv", None, None);
    RunSendsName(w, d, "iv");
    if iv.result.Success? {
      var up := RunSpec(iv.world, d, "up", None, None);
      RunSendsName(iv.world, d, "up");
      var o := Readings(w, d, watchdogReset);
      if o.result.Success? {
        assert o.world == up.world;
        WritesChain(w.link.trace, iv.world.link.trace, up.world.link.trace, [NameBytes("iv").value], [NameBytes("up").value]);
      }
    }
  }

  /** A command sent with no parameters writes its name alone. */
  lemma RunSendsName(w: World, d: Dialect, name: string)
    requires Sendable(w, name)
    ensures var o := RunSpec(w, d, name, None, None);
      o.world.commands == w.commands &&
      Writes(o.world.link.trace) == Writes(w.link.trace) + [NameBytes(name).value]
  {
    RunSends(w, d, name, None, None);
  }

  lemma WritesChain(a: seq<Event>, b: seq<Event>, c: seq<Event>, xs: seq<seq<byte>>, ys: seq<seq<byte>>)
    requires Writes(b) == Writes(a) + xs && Writes(c) == Writes(b) + ys
    ensures Writes(c) == Writes(a) + (xs + ys)
  {
  }

  method GetStatus(e: Engine) returns (r: Result<Status, Fault>)
    modifies e.port, e.lock
    ensures Outcome(e.Now(), r) == Guard(e.lock.contended, old(e.Now()), StatusSpec(old(e.Now()), e.dialect))
    ensures !e.lock.held && e.lock.releases == old(e.lock.releases) + 1
  {
    var ok := e.lock.Obtain();
    if ok {
      r := StatusHeld(e);
    } else {
      r := Failure(LockTimeout);
    }
    e.lock.Release();
  }

  method StatusHeld(e: Engine) returns (r: Result<Status, Fault>)
    modifies e.port
    ensures Outcome(e.Now(), r) == StatusSpec(old(e.Now()), e.dialect)
  {
    var restart :- e.Run("ws", None, None);
    var pwrIn :- e.ReadWhole("iv", F32);
    var seconds :- e.ReadWhole("up", U32);
    r := Success(Status(Truthy(restart), pwrIn, seconds));
  }

  // ---------------------------------------------------------------------------------------------
  // commands sent for their effect

  /** An operation that returns nothing: the response is dropped, an exception is kept. */
  function Discard(o: Outcome<Payload>): (r: Outcome<()>)
    ensures r.world == o.world && (r.result.Success? <==> o.result.Success?)
    ensures o.result.Failure? ==> r.result.error == o.result.error
  {
    Outcome(o.world, if o.result.Success? then Success(()) else Failure(o.result.error))
  }

  /** The one-byte parameter `1 if on else 0` of `lamp_run` and `sample_mode`. */
  function Flag(on: bool): (p: seq<byte>)
    ensures |p| == 1 && (p[0] == 1 <==> on) && (p[0] == 0 <==> !on)
  {
    [if on then 1 else 0]
  }

  /** `lamp_run`, `watchdog_clear` and t1f1 `sample`: `find(name)` and `_transact(cmd, p1)`. */
  function SendSpec(w: World, d: Dialect, name: string, p1: Option<seq<byte>>): Outcome<()>
  {
    Discard(RunSpec(w, d, name, p1, None))
  }

  /** `reload_calib`, `measure_calibrate` and `sample_mode`: the same, then `time.sleep(cmd.execution_time)`. */
  function SettleSpec(w: World, d: Dialect, name: string, p1: Option<seq<byte>>): Outcome<()>
  {
    Discard(SettledSpec(w, d, name, p1, None, 0))
  }

  /** `lamp_level`: the voltage is encoded as a float before the command is looked up. */
  function LampLevelSpec(w: World, d: Dialect, voltage: Value): Outcome<()>
  {
    match Encode(F32, voltage)
    case None => Outcome(w, Failure(OutOfRange))
    case Some(bs) => SendSpec(w, d, "ll", Some(bs))
  }

  /** `lamp_run(on)` writes the `lr` name and then the single byte 1 or 0. */
  lemma LampRunSends(w: World, d: Dialect, on: bool)
    requires Sendable(w, "lr")
    ensures var o := SendSpec(w, d, "lr", Some(Flag(on)));
      o.world.commands == w.commands &&
      Writes(o.world.link.trace) == Writes(w.link.trace) + [NameBytes("lr").value, Flag(on)]
  {
    RunSends(w, d, "lr", Some(Flag(on)), None);
  }

  /** `lamp_level(v)` writes the `ll` name and then four bytes the device decodes back to `v`. */
  lemma LampLevelSends(w: World, d: Dialect, voltage: Value)
    requires Sendable(w, "ll") && Fits(F32, voltage)
    ensures var o := LampLevelSpec(w, d, voltage);
      var bs := Encode(F32, voltage).value;
      o.world.commands == w.commands && |bs| == 4 && Whole(Many(bs), F32) == Success(voltage) &&
      Writes(o.world.link.trace) == Writes(w.link.trace) + [NameBytes("ll").value, bs]
  {
    var bs := Encode(F32, voltage).value;
    RunSends(w, d, "ll", Some(bs), None);
    StoredBytesFetchBack(F32, voltage, bs);
  }

  /**
   * A settled command writes its frame, and on success the last thing it does
   * is wait the table's execution time for it.
   */
  lemma SettleWaits(w: World, d: Dialect, name: string, p1: Option<seq<byte>>)
    requires Sendable(w, name)
    ensures var o := SettleSpec(w, d, name, p1);
      var t := o.world.link.trace;
      o.world.commands == w.commands &&
      Writes(t) == Writes(w.link.trace) + Frame(NameBytes(name).value, p1, None) &&
      (o.result.Success? ==>
        Lookup(w.commands, name).value.executionTime.Some? &&
        t[|t| - 1] == Slept(Lookup(w.commands, name).value.executionTime.value))
  {
    SettledSends(w, d, name, p1, None, 0);
  }

  method Send(e: Engine, name: string, p1: Option<seq<byte>>) returns (r: Result<(), Fault>)
    modifies e.port, e.lock
    ensures Outcome(e.Now(), r) == Guard(e.lock.contended, old(e.Now()), SendSpec(old(e.Now()), e.dialect, name, p1))
    ensures !e.lock.held && e.lock.releases == old(e.lock.releases) + 1
  {
    var ok := e.lock.Obtain();
    if ok {
      var response := e.Run(name, p1, None);
      r := if response.Success? then Success(()) else Failure(response.error);
    } else {
      r := Failure(LockTimeout);
    }
    e.lock.Release();
  }

  method Settle(e: Engine, name: string, p1: Option<seq<byte>>) returns (r: Result<(), Fault>)
    modifies e.port, e.lock
    ensures Outcome(e.Now(), r) == Guard(e.lock.contended, old(e.Now()), SettleSpec(old(e.Now()), e.dialect, name, p1))
    ensures !e.lock.held && e.lock.releases == old(e.lock.releases) + 1
  {
    var ok := e.lock.Obtain();
    if ok {
      var response := e.RunSettled(name, p1, None, 0);
      r := if response.Success? then Success(()) else Failure(response.error);
    } else {
      r := Failure(LockTimeout);
    }
    e.lock.Release();
  }

  method LampLevel(e: Engine, voltage: Value) returns (r: Result<(), Fault>)
    modifies e.port, e.lock
    ensures Outcome(e.Now(), r) == Guard(e.lock.contended, old(e.Now()), LampLevelSpec(old(e.Now()), e.dialect, voltage))
    ensures !e.lock.held && e.lock.releases == old(e.lock.releases) + 1
  {
    var ok := e.lock.Obtain();
    if ok {
      var bs := Encode(F32, voltage);
      if bs.None? {
        r := Failure(OutOfRange);
      } else {
        var response := e.Run("ll", Some(bs.value), None);
        r := if response.Success? then Success(()) else Failure(response.error);
      }
    } else {
      r := Failure(LockTimeout);
    }
    e.lock.Release();
  }

  // ---------------------------------------------------------------------------------------------
  // reset

  /** `reset`: `wr`, its execution time, then `wc` to clear the watchdog status. */
  function ResetSpec(w: World, d: Dialect): Outcome<()>
  {
    var wr := SettledSpec(w, d, "wr", None, None, 0);
    match wr.result
    case Failure(e) => Outcome(wr.world, Failure(e))
    case Success(_) => SendSpec(wr.world, d, "wc", None)
  }

  /**
   * A reset that succeeds wrote `wr` and then `wc` and nothing else, and
   * between the two the host waited `wr`'s execution time: the `wr` part of
   * the trace ends with that wait and the `wc` transaction follows it.
   */
  lemma ResetSequence(w: World, d: Dialect)
    requires Sendable(w, "wr") && Sendable(w, "wc")
    ensures var o := ResetSpec(w, d);
      var first := SettledSpec(w, d, "wr", None, None, 0).world.link.trace;
      o.world.commands == w.commands &&
      (o.result.Success? ==>
        Writes(o.world.link.trace) == Writes(w.link.trace) + [NameBytes("wr").value, NameBytes("wc").value] &&
        first[|first| - 1] == Slept(Lookup(w.commands, "wr").value.executionTime.value) &&
        first <= o.world.link.trace)
  {
    var wr := SettledSpec(w, d, "wr", None, None, 0);
    SettledSends(w, d, "wr", None, None, 0);
    if wr.result.Success? {
      RunSends(wr.world, d, "wc", None, None);
      var cmd := Lookup(w.commands, "wc").value;
      OneSession(wr.world.link, d, cmd, None, None);
    }
  }

  method Reset(e: Engine) returns (r: Result<(), Fault>)
    modifies e.port, e.lock
    ensures Outcome(e.Now(), r) == Guard(e.lock.contended, old(e.Now()), ResetSpec(old(e.Now()), e.dialect))
    ensures !e.lock.held && e.lock.releases == old(e.lock.releases) + 1
  {
    var ok := e.lock.Obtain();
    if ok {
      r := ResetHeld(e);
    } else {
      r := Failure(LockTimeout);
    }
    e.lock.Release();
  }

  method ResetHeld(e: Engine) returns (r: Result<(), Fault>)
    modifies e.port
    ensures Outcome(e.Now(), r) == ResetSpec(old(e.Now()), e.dialect)
  {
    var forced := e.RunSettled("wr", None, None, 0);
    if forced.Failure? {
      return Failure(forced.error);
    }
    var cleared := e.Run("wc", None, None);
    r := if cleared.Success? then Success(()) else Failure(cleared.error);
  }

  // ---------------------------------------------------------------------------------------------
  // the arbitrary test command

  /** `cmd(...)`: a command built from the arguments, not looked up, then `time.sleep(execution_time)`. */
  function CustomSpec(w: World, d: Dialect, cmd: Command): Outcome<()>
  {
    var s := TransactSpec(w.link, d, cmd, None, None);
    var after := World(s.link, w.commands);
    if s.result.Failure? then Outcome(after, Failure(s.result.error))
    else if cmd.executionTime.None? then Outcome(after, Failure(DelayUnset(cmd)))
    else Outcome(Sleep(after, cmd.executionTime.value), Success(()))
  }

  /**
   * The test command bypasses the table: whatever its name, the table is
   * untouched, the frame written is its name alone, and it waits the given
   * execution time only after a transaction that succeeded.
   */
  lemma CustomBypassesTable(w: World, d: Dialect, cmd: Command)
    requires NameBytes(cmd.name).Some?
    ensures var o := CustomSpec(w, d, cmd);
      var s := TransactSpec(w.link, d, cmd, None, None);
      o.world.commands == w.commands &&
      Writes(o.world.link.trace) == Writes(w.link.trace) + [NameBytes(cmd.name).value] &&
      (o.result.Success? <==> s.result.Success? && cmd.executionTime.Some?) &&
      (o.result.Success? ==> o.world.link.trace == s.link.trace + [Slept(cmd.executionTime.value)])
  {
    var s := TransactSpec(w.link, d, cmd, None, None);
    SendsFrame(w.link, d, cmd, None, None);
    assert Frame(NameBytes(cmd.name).value, None, None) == [NameBytes(cmd.name).value];
    if s.result.Success? && cmd.executionTime.Some? {
      WritesAppend(s.link.trace, [Slept(cmd.executionTime.value)]);
      WritesOne(Slept(cmd.executionTime.value));
    }
  }

  method Custom(e: Engine, cmd: Command) returns (r: Result<(), Fault>)
    modifies e.port, e.lock
    ensures Outcome(e.Now(), r) == Guard(e.lock.contended, old(e.Now()), CustomSpec(old(e.Now()), e.dialect, cmd))
    ensures !e.lock.held && e.lock.releases == old(e.lock.releases) + 1
  {
    var ok := e.lock.Obtain();
    if ok {
      r := Success(());
      var response := Transact.Transact(e.port, e.dialect, cmd, None, None);
      if response.Failure? {
        r := Failure(response.error);
      } else if cmd.executionTime.None? {
        r := Failure(DelayUnset(cmd));
      } else {
        e.port.Sleep(cmd.executionTime.value);
      }
    } else {
      r := Failure(LockTimeout);
    }
    e.lock.Release();
  }

  // ---------------------------------------------------------------------------------------------
  // record_raw: the parts every dialect shares

  /** The `rs` parameter group: deferral, interval and count, each an unsigned 16-bit little-endian int. */
  function RecordParams(deferral: int, interval: int, count: int): (r: Option<seq<byte>>)
    ensures r.Some? <==> 0 <= deferral < U16_LIMIT && 0 <= interval < U16_LIMIT && 0 <= count < U16_LIMIT
    ensures r.Some? ==> |r.value| == 6
  {
    match (EncodeUnsignedInt(deferral), EncodeUnsignedInt(interval), EncodeUnsignedInt(count))
    case (Some(a), Some(b), Some(c)) => Some(a + b + c)
    case _ => None
  }

  /** The device reads the parameter group back as the three values, in order. */
  lemma RecordParamsRoundTrip(deferral: int, interval: int, count: int)
    requires RecordParams(deferral, interval, count).Some?
    ensures Unpack(RecordParams(deferral, interval, count).value, SHORT_RECORD) == Some([Int(deferral), Int(interval), Int(count)])
  {
    var bs := RecordParams(deferral, interval, count).value;
    var a, b, c := EncodeU16(deferral), EncodeU16(interval), EncodeU16(count);
    assert bs == a + b + c;
    var two: seq<Kind> := [U16, U16];
    var one: seq<Kind> := [U16];
    assert SHORT_RECORD[1..] == two && two[1..] == one && one[1..] == [];
    assert Size(one) == 2 && Size(two) == 4;
    RecordSizes();
    UnpackFirst(bs, SHORT_RECORD);
    assert bs[..2] == a && bs[2..] == b + c;
    UnpackFirst(b + c, two);
    assert (b + c)[..2] == b && (b + c)[2..] == c;
    UnpackFirst(c, one);
    assert c[..2] == c && c[2..] == [];
    assert Unpack(c, one).value == [Int(count)];
    assert Unpack(b + c, two).value == [Int(interval), Int(count)];
    assert Unpack(bs, SHORT_RECORD).value == [Int(deferral), Int(interval), Int(count)];
  }

  /**
   * The playback loop over `range(0, return_count, stride)`: no records from
   * a `None` response, and a lone byte cannot be sliced.
   */
  function PlaybackOf(p: Payload, layout: seq<Kind>): (r: Result<seq<seq<Value>>, Fault>)
    requires Size(layout) > 0
    ensures p.Nothing? ==> r == Success([])
    ensures p.Single? ==> r == Failure(Undecodable)
  {
    match p
    case Nothing => Success([])
    case Single(_) => Failure(Undecodable)
    case Many(bs) => Success(Records(bs, layout))
  }

  /** `find('rp')`, its return count set to `count` strides on the shared entry, `_transact`, then the playback loop. */
  function PlaybackSpec(w: World, d: Dialect, count: nat, layout: seq<Kind>): Outcome<seq<seq<Value>>>
    requires Size(layout) > 0
  {
    var o := CountedSpec(w, d, "rp", count * Size(layout), None, None);
    match o.result
    case Failure(e) => Outcome(o.world, Failure(e))
    case Success(p) => Outcome(o.world, PlaybackOf(p, layout))
  }

  /**
   * After the device accepts `rp` with its return count set to `count`
   * strides, the playback has exactly `count` records, record k being the
   * layout unpacked at offset k times the stride of the bytes clocked out
   * after the status byte.
   */
  lemma PlaybackCount(w: World, d: Dialect, count: nat, layout: seq<Kind>)
    requires Size(layout) >= 2 && Sendable(w, "rp")
    requires Classify(d, Clocked(w.link.incoming, 1)[0]).None?
    ensures var o := PlaybackSpec(w, d, count, layout);
      var bs := Clocked(w.link.incoming, 1 + count * Size(layout))[1..];
      o.result.Success? && |o.result.value| == count &&
      forall k :: 0 <= k < count ==>
        k * Size(layout) + Size(layout) <= |bs| &&
        o.result.value[k] == Unpack(bs[k * Size(layout)..], layout).value
  {
    if count == 0 {
      PlaybackEmpty(w, d);
    } else {
      var n := count * Size(layout);
      PlaybackBytes(w, d, count, Size(layout));
      RecordsSplit(Clocked(w.link.incoming, 1 + n)[1..], layout, count);
    }
  }

  /** The playback writes `rp` alone, in a session of its own after everything that came before. */
  lemma PlaybackSends(w: World, d: Dialect, count: nat, layout: seq<Kind>)
    requires Size(layout) > 0 && Sendable(w, "rp")
    ensures var o := PlaybackSpec(w, d, count, layout);
      w.link.trace <= o.world.link.trace &&
      Writes(o.world.link.trace) == Writes(w.link.trace) + [NameBytes("rp").value]
  {
    var cmd := Lookup(w.commands, "rp").value.(returnCount := Some(count * Size(layout)));
    OneSession(w.link, d, cmd, None, None);
    CountedSendsName(w, d, "rp", count * Size(layout));
  }

  /** `rp` and the loop that appends one record per stride. */
  method Replay(e: Engine, count: nat, layout: seq<Kind>) returns (r: Result<seq<seq<Value>>, Fault>)
    requires Size(layout) > 0
    modifies e.port, e.table
    ensures Outcome(e.Now(), r) == PlaybackSpec(old(e.Now()), e.dialect, count, layout)
  {
    var response :- e.RunCounted("rp", count * Size(layout), None, None);
    match response
    case Nothing =>
      r := Success([]);
    case Single(_) =>
      r := Failure(Undecodable);
    case Many(bs) =>
      var values := Fields.Playback(bs, layout);
      r := Success(values);
  }

  /** Bytes holding `count` whole strides play back as `count` records, record k read at offset k times the stride. */
  lemma RecordsSplit(bs: seq<byte>, layout: seq<Kind>, count: nat)
    requires Size(layout) > 0 && |bs| == count * Size(layout)
    ensures |Records(bs, layout)| == count
    ensures forall k :: 0 <= k < count ==>
      k * Size(layout) + Size(layout) <= |bs| && Records(bs, layout)[k] == Unpack(bs[k * Size(layout)..], layout).value
  {
    RecordsLength(bs, layout, count);
    forall k | 0 <= k < count
      ensures k * Size(layout) + Size(layout) <= |bs| && Records(bs, layout)[k] == Unpack(bs[k * Size(layout)..], layout).value
    {
      RecordsAt(bs, layout, count, k, k * Size(layout));
    }
  }

  /** `record_raw` with a count of 0: `rp` answers None, and there is nothing to play back. */
  lemma PlaybackEmpty(w: World, d: Dialect)
    requires Sendable(w, "rp")
    requires Classify(d, Clocked(w.link.incoming, 1)[0]).None?
    ensures CountedSpec(w, d, "rp", 0, None, None).result == Success(Nothing)
  {
    var cmd := Lookup(w.commands, "rp").value.(returnCount := Some(0));
    NoCountNoPayload(w.link, d, cmd, None, None);
  }

  /** With `count` records of `stride` bytes, `rp` answers with exactly the bytes clocked after the status. */
  lemma PlaybackBytes(w: World, d: Dialect, count: nat, stride: nat)
    requires count >= 1 && stride >= 2 && Sendable(w, "rp")
    requires Classify(d, Clocked(w.link.incoming, 1)[0]).None?
    ensures var n := count * stride;
      CountedSpec(w, d, "rp", n, None, None).result == Success(Many(Clocked(w.link.incoming, 1 + n)[1..]))
  {
    var n := count * stride;
    MulMonotone(1, count, stride);
    var cmd := Lookup(w.commands, "rp").value.(returnCount := Some(n));
    ReadsExactlyCount(w.link, d, cmd, None, None);
  }

  // ---------------------------------------------------------------------------------------------
  // record_raw in x1, v1 and NDIR

  /** How far past `rs`'s execution time `record_raw` waits: the whole recording (x1, v1) or the deferral alone (NDIR). */
  datatype Wait = WholeRecording | DeferralOnly

  /** The extra wait in microseconds; the drivers compute it in milliseconds and sleep it in seconds. */
  function Extra(wait: Wait, deferral: nat, interval: nat, count: nat): nat
  {
    match wait
    case WholeRecording => (interval * count + deferral) * 1000
    case DeferralOnly => deferral * 1000
  }

  /**
   * `record_raw`: the parameter block is encoded first, then `rs` goes out
   * with it and is followed by a wait of its execution time plus the extra,
   * then the recording is played back with `count` strides of `layout`.
   */
  function RecordSpec(w: World, d: Dialect, deferral: int, interval: int, count: int, layout: seq<Kind>, wait: Wait): Outcome<seq<seq<Value>>>
    requires Size(layout) > 0
  {
    match RecordParams(deferral, interval, count)
    case None => Outcome(w, Failure(OutOfRange))
    case Some(params) =>
      var started := SettledSpec(w, d, "rs", Some(params), None, Extra(wait, deferral, interval, count));
      match started.result
      case Failure(e) => Outcome(started.world, Failure(e))
      case Success(_) => PlaybackSpec(started.world, d, count, layout)
  }

  /**
   * A parameter out of the unsigned 16-bit range is refused before anything
   * is sent. Otherwise `rs` goes out with the block, and only after it was
   * accepted does `rp` follow, with no parameters; nothing else is written.
   */
  lemma RecordSends(w: World, d: Dialect, deferral: int, interval: int, count: int, layout: seq<Kind>, wait: Wait)
    requires Size(layout) > 0 && Sendable(w, "rs") && Sendable(w, "rp")
    ensures RecordParams(deferral, interval, count).None? ==>
      RecordSpec(w, d, deferral, interval, count, layout, wait) == Outcome(w, Failure(OutOfRange))
    ensures RecordParams(deferral, interval, count).Some? ==>
      var params := RecordParams(deferral, interval, count).value;
      var started := SettledSpec(w, d, "rs", Some(params), None, Extra(wait, deferral, interval, count));
      var o := RecordSpec(w, d, deferral, interval, count, layout, wait);
      (started.result.Failure? ==>
        Writes(o.world.link.trace) == Writes(w.link.trace) + [NameBytes("rs").value, params]) &&
      (started.result.Success? ==>
        Writes(o.world.link.trace) == Writes(w.link.trace) + [NameBytes("rs").value, params, NameBytes("rp").value])
  {
    if RecordParams(deferral, interval, count).Some? {
      var params := RecordParams(deferral, interval, count).value;
      var extra := Extra(wait, deferral, interval, count);
      var started := SettledSpec(w, d, "rs", Some(params), None, extra);
      var a, b, c := NameBytes("rs").value, params, NameBytes("rp").value;
      SettledSends(w, d, "rs", Some(params), None, extra);
      assert Frame(a, Some(params), None) == [a, b];
      if started.result.Success? {
        CountedSendsName(started.world, d, "rp", count * Size(layout));
        WritesChain(w.link.trace, started.world.link.trace, RecordSpec(w, d, deferral, interval, count, layout, wait).world.link.trace, [a, b], [c]);
        assert [a, b] + [c] == [a, b, c];
      }
    }
  }

  /** A counted command with no parameters writes its bare name. */
  lemma CountedSendsName(w: World, d: Dialect, name: string, count: int)
    requires Sendable(w, name)
    ensures Writes(CountedSpec(w, d, name, count, None, None).world.link.trace) == Writes(w.link.trace) + [NameBytes(name).value]
  {
    var cmd := Lookup(w.commands, name).value.(returnCount := Some(count));
    SendsFrame(w.link, d, cmd, None, None);
    assert Frame(NameBytes(name).value, None, None) == [NameBytes(name).value];
  }

  /** An accepted `rs` is followed by a sleep of its execution time plus the extra wait, before anything else happens. */
  lemma RecordWaits(w: World, d: Dialect, deferral: int, interval: int, count: int, wait: Wait)
    requires Sendable(w, "rs") && RecordParams(deferral, interval, count).Some?
    ensures var started := SettledSpec(w, d, "rs", RecordParams(deferral, interval, count), None, Extra(wait, deferral, interval, count));
      var t := started.world.link.trace;
      started.result.Success? ==>
        Lookup(w.commands, "rs").value.executionTime.Some? &&
        t[|t| - 1] == Slept(Lookup(w.commands, "rs").value.executionTime.value + Extra(wait, deferral, interval, count))
  {
    SettleOnlyOnSuccess(w, d, "rs", RecordParams(deferral, interval, count), None, Extra(wait, deferral, interval, count));
  }

  /**
   * The playback after an accepted `rs`: what follows is the playback alone,
   * and when the device accepts `rp` the result holds exactly `count`
   * records, each read as PlaybackCount states.
   */
  lemma RecordPlaysBack(w: World, d: Dialect, deferral: int, interval: int, count: nat, layout: seq<Kind>, wait: Wait, started: World)
    requires Size(layout) >= 2 && Sendable(started, "rp")
    requires RecordParams(deferral, interval, count).Some?
    requires SettledSpec(w, d, "rs", RecordParams(deferral, interval, count), None, Extra(wait, deferral, interval, count)).world == started
    requires SettledSpec(w, d, "rs", RecordParams(deferral, interval, count), None, Extra(wait, deferral, interval, count)).result.Success?
    requires Classify(d, Clocked(started.link.incoming, 1)[0]).None?
    ensures RecordSpec(w, d, deferral, interval, count, layout, wait) == PlaybackSpec(started, d, count, layout)
    ensures PlaybackSpec(started, d, count, layout).result.Success?
    ensures |PlaybackSpec(started, d, count, layout).result.value| == count
  {
    PlaybackCount(started, d, count, layout);
  }

  /** `record_raw` under the host lock. */
  method Record(e: Engine, deferral: int, interval: int, count: int, layout: seq<Kind>, wait: Wait) returns (r: Result<seq<seq<Value>>, Fault>)
    requires Size(layout) > 0
    modifies e.port, e.table, e.lock
    ensures Outcome(e.Now(), r) == Guard(e.lock.contended, old(e.Now()), RecordSpec(old(e.Now()), e.dialect, deferral, interval, count, layout, wait))
    ensures !e.lock.held && e.lock.releases == old(e.lock.releases) + 1
  {
    var ok := e.lock.Obtain();
    if ok {
      r := RecordHeld(e, deferral, interval, count, layout, wait);
    } else {
      r := Failure(LockTimeout);
    }
    e.lock.Release();
  }

  method RecordHeld(e: Engine, deferral: int, interval: int, count: int, layout: seq<Kind>, wait: Wait) returns (r: Result<seq<seq<Value>>, Fault>)
    requires Size(layout) > 0
    modifies e.port, e.table
    ensures Outcome(e.Now(), r) == RecordSpec(old(e.Now()), e.dialect, deferral, interval, count, layout, wait)
  {
    var params := RecordParams(deferral, interval, count);
    if params.None? {
      return Failure(OutOfRange);
    }
    var started := e.RunSettled("rs", Some(params.value), None, Extra(wait, deferral, interval, count));
    if started.Failure? {
      return Failure(started.error);
    }
    r := Replay(e, count, layout);
  }
}
