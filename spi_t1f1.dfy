/**
 * The `SPINDIRt1f1` driver class
 * (src/scs_ndir/gas/spi_ndir_t1_f1/spi_ndir_t1_f1.py): its own power
 * switching, active low; `sample`, which only starts a sample; the sample
 * interval read from the calibration EEPROM; and `record_raw`, which waits
 * for a time derived from the lamp period it reads back from the EEPROM.
 * The getters, status, lamp, reset and test commands it shares with the
 * other dialects are in Operations, and its calibration store in CalibStore.
 */
module SpiT1F1 {
  import opened Wrappers
  import opened Bytes
  import opened Commands
  import opened Bus
  import opened Transact
  import opened Fields
  import opened Engine
  import opened Operations
  import opened Power
  import opened CalibRecord
  import opened CalibStore

  /** `__BOOT_DELAY`, 3.5 seconds. */
  const BOOT_DELAY: nat := 3_500_000

  const LAMP_PERIOD: Slot := Slot(COMMON_BLOCK, INDEX_LAMP_PERIOD, U16)
  const SAMPLE_END: Slot := Slot(COMMON_BLOCK, INDEX_SAMPLE_END, U16)

  // ---------------------------------------------------------------------------------------------
  // sample

  /** `sample`: `sp` goes out with no parameters; its response is not used. */
  function SampleSpec(w: World, d: Dialect): Outcome<()>
  {
    SendSpec(w, d, "sp", None)
  }

  /**
   * With the table as initialised, `sample` writes `sp` alone and, when the
   * device accepts it, succeeds having clocked out the status byte and
   * nothing more: `sp` has a return count of 0.
   */
  lemma SampleReadsStatusOnly(w: World)
    requires w.commands == Some(Static(T1F1))
    requires Classify(DialectOf(T1F1), Clocked(w.link.incoming, 1)[0]).None?
    ensures var o := SampleSpec(w, DialectOf(T1F1));
      o.result.Success? && o.world.commands == w.commands &&
      o.world.link.incoming == Drained(w.link.incoming, 1) &&
      Writes(o.world.link.trace) == Writes(w.link.trace) + [NameBytes("sp").value]
  {
    DictFinds(T1F1Entries(), 17);
    var cmd := Static(T1F1)["sp"];
    assert Lookup(w.commands, "sp") == Success(cmd);
    NoCountNoPayload(w.link, DialectOf(T1F1), cmd, None, None);
    RunSends(w, DialectOf(T1F1), "sp", None, None);
    assert Frame(NameBytes("sp").value, None, None) == [NameBytes("sp").value];
  }

  // ---------------------------------------------------------------------------------------------
  // sample interval

  /** `(lamp_period + sample_end + 10) / 1000`: milliseconds to seconds. */
  function Seconds(lampPeriod: nat, sampleEnd: nat): real
  {
    (lampPeriod + sampleEnd + 10) as real / 1000.0
  }

  /** `get_sample_interval`: the lamp period and the sample end, both read from the common block. */
  function SampleIntervalSpec(w: World, d: Dialect): (o: Outcome<real>)
    ensures o.result.Success? ==> 0.01 <= o.result.value <= Seconds(U16_LIMIT - 1, U16_LIMIT - 1)
  {
    var lp := ReadSpec(w, d, LAMP_PERIOD);
    match lp.result
    case Failure(e) => Outcome(lp.world, Failure(e))
    case Success(period) =>
      var se := ReadSpec(lp.world, d, SAMPLE_END);
      match se.result
      case Failure(e) => Outcome(se.world, Failure(e))
      case Success(end) => Outcome(se.world, Success(Seconds(period.i, end.i)))
  }

  /** Reading the interval sends `cr` for (0, lamp period) and, only when that succeeded, `cr` for (0, sample end). */
  lemma SampleIntervalSends(w: World, d: Dialect)
    requires Sendable(w, "cr")
    ensures var o := SampleIntervalSpec(w, d);
      var lp := ReadSpec(w, d, LAMP_PERIOD);
      var cr := NameBytes("cr").value;
      (lp.result.Failure? ==> Writes(o.world.link.trace) == Writes(w.link.trace) + [cr, [0, 4]]) &&
      (lp.result.Success? ==> Writes(o.world.link.trace) == Writes(w.link.trace) + [cr, [0, 4], cr, [0, 6]])
  {
    var lp := ReadSpec(w, d, LAMP_PERIOD);
    var cr := NameBytes("cr").value;
    FetchSends(w, d, "cr", Address(LAMP_PERIOD), U16);
    if lp.result.Success? {
      CountedLeavesName(w, d, "cr", Width(U16), Some(Address(LAMP_PERIOD)));
      FetchSends(lp.world, d, "cr", Address(SAMPLE_END), U16);
      WritesChain(w.link.trace, lp.world.link.trace, SampleIntervalSpec(w, d).world.link.trace, [cr, [0, 4]], [cr, [0, 6]]);
      assert [cr, [0, 4]] + [cr, [0, 6]] == [cr, [0, 4], cr, [0, 6]];
    }
  }

  /** Setting a return count keeps the entry findable under its own name. */
  lemma CountedLeavesName(w: World, d: Dialect, name: string, count: int, p1: Option<seq<byte>>)
    requires Sendable(w, name)
    ensures Sendable(CountedSpec(w, d, name, count, p1, None).world, name)
  {
  }

  /** The interval as the EEPROM holds it: both fields read from their cells. */
  function StoredInterval(e: Eeprom): Result<real, Fault>
  {
    var period :- Fetched(e, LAMP_PERIOD);
    var end :- Fetched(e, SAMPLE_END);
    Success(Seconds(period.i, end.i))
  }

  /** After `store_calib(c)`, the EEPROM holds the interval computed from the record's own lamp period and sample end. */
  lemma BurnHoldsInterval(e: Eeprom, c: Calib)
    requires Storable(c)
    ensures AllFit(StorePlan(c))
    ensures StoredInterval(Burn(e, StorePlan(c))) == Success(Seconds(c.lampPeriod.i, c.sampleEnd.i))
  {
    BurnRecalls(e, c);
    var m := Burn(e, StorePlan(c));
    var common := FetchedAll(m, COMMON_SLOTS).value;
    assert CommonFields(c) == common;
    FetchedAllAt(m, COMMON_SLOTS, 4);
    FetchedAllAt(m, COMMON_SLOTS, 6);
  }

  /**
   * `get_sample_interval` against a device whose EEPROM is `e` and which
   * accepts both `cr`s: the two reads give the interval the EEPROM holds,
   * and consume exactly their two replies.
   */
  lemma SampleIntervalReadsEeprom(w: World, d: Dialect, e: Eeprom, status: byte, rest: seq<byte>)
    requires Sendable(w, "cr") && Classify(d, status).None? && StoredInterval(e).Success?
    requires w.link.incoming == Reply(e, status, LAMP_PERIOD) + Reply(e, status, SAMPLE_END) + rest
    ensures SampleIntervalSpec(w, d).result == StoredInterval(e)
    ensures SampleIntervalSpec(w, d).world.link.incoming == rest
  {
    var tail := Reply(e, status, SAMPLE_END) + rest;
    assert w.link.incoming == Reply(e, status, LAMP_PERIOD) + tail;
    ReadReplies(w, d, e, status, LAMP_PERIOD, tail);
    ReadReplies(ReadSpec(w, d, LAMP_PERIOD).world, d, e, status, SAMPLE_END, rest);
  }

  /**
   * After `store_calib(c)` has burned a storable record into the device's
   * EEPROM, `get_sample_interval` reads the interval computed from c's own
   * lamp period and sample end.
   */
  lemma StoredSampleInterval(e: Eeprom, c: Calib, w: World, d: Dialect, status: byte, rest: seq<byte>)
    requires Storable(c)
    requires Sendable(w, "cr") && Classify(d, status).None?
    requires (StorableIff(c); var m := Burn(e, StorePlan(c));
      w.link.incoming == Reply(m, status, LAMP_PERIOD) + Reply(m, status, SAMPLE_END) + rest)
    ensures AllFit(StorePlan(c))
    ensures StoredInterval(Burn(e, StorePlan(c))) == Success(Seconds(c.lampPeriod.i, c.sampleEnd.i))
    ensures SampleIntervalSpec(w, d).result == Success(Seconds(c.lampPeriod.i, c.sampleEnd.i))
  {
    BurnHoldsInterval(e, c);
    SampleIntervalReadsEeprom(w, d, Burn(e, StorePlan(c)), status, rest);
  }

  lemma {:induction false} FetchedAllAt(e: Eeprom, slots: seq<Slot>, i: nat)
    requires FetchedAll(e, slots).Success? && i < |slots|
    ensures Fetched(e, slots[i]) == Success(FetchedAll(e, slots).value[i])
    decreases i
  {
    if i > 0 {
      FetchedAllAt(e, slots[1..], i - 1);
    }
  }

  // ---------------------------------------------------------------------------------------------
  // record_raw

  /** The wait after `rs`, in microseconds: lamp period, deferral and the recording, all in milliseconds. */
  function LampWait(lampPeriod: nat, deferral: nat, interval: nat, count: nat): nat
  {
    (lampPeriod + deferral + interval * count) * 1000
  }

  /**
   * `record_raw`: `rs` with the parameter block (its own execution time is
   * not waited), the lamp period read back from the EEPROM, a wait computed
   * from it, then the playback of `count` records of ten bytes.
   */
  function LampRecordSpec(w: World, d: Dialect, deferral: int, interval: int, count: int): Outcome<seq<seq<Value>>>
  {
    match RecordParams(deferral, interval, count)
    case None => Outcome(w, Failure(OutOfRange))
    case Some(params) => AfterStart(RunSpec(w, d, "rs", Some(params), None), d, deferral, interval, count)
  }

  /** What follows an `rs` transaction: nothing once it failed, else the lamp period is read. */
  function AfterStart(started: Outcome<Payload>, d: Dialect, deferral: nat, interval: nat, count: nat): Outcome<seq<seq<Value>>>
  {
    match started.result
    case Failure(e) => Outcome(started.world, Failure(e))
    case Success(_) => AfterLamp(ReadSpec(started.world, d, LAMP_PERIOD), d, deferral, interval, count)
  }

  /** What follows reading the lamp period: nothing once it failed, else the wait and the playback. */
  function AfterLamp(lp: Outcome<Value>, d: Dialect, deferral: nat, interval: nat, count: nat): Outcome<seq<seq<Value>>>
    requires lp.result.Success? ==> Fits(U16, lp.result.value)
  {
    match lp.result
    case Failure(e) => Outcome(lp.world, Failure(e))
    case Success(period) =>
      RecordSizes();
      PlaybackSpec(Sleep(lp.world, LampWait(period.i, deferral, interval, count)), d, count, LONG_RECORD)
  }

  /**
   * A recording that gets as far as the playback sent `rs` with the block,
   * `cr` for (0, lamp period) and then `rp`; and the last thing before the
   * `rp` session was the wait computed from the lamp period the device
   * returned.
   */
  lemma RecordWaitsForLamp(w: World, d: Dialect, deferral: int, interval: int, count: int)
    requires Sendable(w, "rs") && Sendable(w, "cr") && Sendable(w, "rp")
    requires RecordParams(deferral, interval, count).Some?
    ensures var params := RecordParams(deferral, interval, count).value;
      var started := RunSpec(w, d, "rs", Some(params), None);
      var lp := ReadSpec(started.world, d, LAMP_PERIOD);
      var o := LampRecordSpec(w, d, deferral, interval, count);
      started.result.Success? && lp.result.Success? ==>
        var before := Log(lp.world.link, Slept(LampWait(lp.result.value.i, deferral, interval, count))).trace;
        before <= o.world.link.trace &&
        Writes(o.world.link.trace) == Writes(w.link.trace) + [NameBytes("rs").value, params, NameBytes("cr").value, [0, 4], NameBytes("rp").value]
  {
    var params := RecordParams(deferral, interval, count).value;
    var started := RunSpec(w, d, "rs", Some(params), None);
    if started.result.Success? {
      var lp := ReadSpec(started.world, d, LAMP_PERIOD);
      if lp.result.Success? {
        var us := LampWait(lp.result.value.i, deferral, interval, count);
        LampPrelude(w, d, params, us);
        CountedLeavesOthers(started.world, d, "cr", "rp", Width(U16), Some(Address(LAMP_PERIOD)));
        LampTail(lp, d, deferral, interval, count);
        var prelude := [NameBytes("rs").value, params, NameBytes("cr").value, [0, 4]];
        WritesChain(w.link.trace, Sleep(lp.world, us).link.trace, AfterLamp(lp, d, deferral, interval, count).world.link.trace, prelude, [NameBytes("rp").value]);
      }
    }
  }

  /** After the lamp period was read: the wait, then `rp` in a session of its own. */
  lemma LampTail(lp: Outcome<Value>, d: Dialect, deferral: nat, interval: nat, count: nat)
    requires lp.result.Success? && Fits(U16, lp.result.value) && Sendable(lp.world, "rp")
    ensures var slept := Sleep(lp.world, LampWait(lp.result.value.i, deferral, interval, count));
      var o := AfterLamp(lp, d, deferral, interval, count);
      slept.link.trace <= o.world.link.trace &&
      Writes(o.world.link.trace) == Writes(slept.link.trace) + [NameBytes("rp").value]
  {
    RecordSizes();
    PlaybackSends(Sleep(lp.world, LampWait(lp.result.value.i, deferral, interval, count)), d, count, LONG_RECORD);
  }

  /** Up to the wait: `rs` with the block, then `cr` with the lamp period's address; the wait itself writes nothing. */
  lemma LampPrelude(w: World, d: Dialect, params: seq<byte>, us: nat)
    requires Sendable(w, "rs") && Sendable(w, "cr") && |params| > 0
    ensures var started := RunSpec(w, d, "rs", Some(params), None);
      var lp := ReadSpec(started.world, d, LAMP_PERIOD);
      Writes(Sleep(lp.world, us).link.trace) == Writes(w.link.trace) + [NameBytes("rs").value, params, NameBytes("cr").value, [0, 4]]
  {
    var started := RunSpec(w, d, "rs", Some(params), None);
    var lp := ReadSpec(started.world, d, LAMP_PERIOD);
    var a, c := NameBytes("rs").value, NameBytes("cr").value;
    RunSends(w, d, "rs", Some(params), None);
    assert Frame(a, Some(params), None) == [a, params];
    FetchSends(started.world, d, "cr", Address(LAMP_PERIOD), U16);
    WritesAppend(lp.world.link.trace, [Slept(us)]);
    WritesOne(Slept(us));
    WritesChain(w.link.trace, started.world.link.trace, lp.world.link.trace, [a, params], [c, [0, 4]]);
    assert [a, params] + [c, [0, 4]] == [a, params, c, [0, 4]];
  }

  /** Setting one entry's return count leaves every other entry as it was. */
  lemma CountedLeavesOthers(w: World, d: Dialect, name: string, other: string, count: int, p1: Option<seq<byte>>)
    requires Sendable(w, name) && Sendable(w, other)
    ensures Sendable(CountedSpec(w, d, name, count, p1, None).world, other)
  {
  }

  // ---------------------------------------------------------------------------------------------

  class SpiNdirT1F1 {
    const engine: Engine
    const io: PowerLine

    constructor (engine: Engine, io: PowerLine)
      ensures this.engine == engine && this.io == io
    {
      this.engine := engine;
      this.io := io;
    }

    function Supply(): Supply
      reads io, engine.port
    {
      Power.Supply(io.level, engine.port.State())
    }

    /** `power_on`: the line is driven LOW and the sensor given its boot delay, unless it was already LOW. */
    method PowerOn()
      modifies io, engine.port
      ensures Supply() == SwitchOn(false, old(Supply()), BOOT_DELAY)
    {
      if !io.level {
        return;
      }
      io.Drive(false);
      engine.port.Sleep(BOOT_DELAY);
    }

    /** `power_off`: the line is driven HIGH, unless it already was. */
    method PowerOff()
      modifies io
      ensures Supply() == SwitchOff(false, old(Supply()))
    {
      if io.level {
        return;
      }
      io.Drive(true);
    }

    method Sample() returns (r: Result<(), Fault>)
      modifies engine.port, engine.lock
      ensures Outcome(engine.Now(), r) == Guard(engine.lock.contended, old(engine.Now()), SampleSpec(old(engine.Now()), engine.dialect))
      ensures !engine.lock.held && engine.lock.releases == old(engine.lock.releases) + 1
    {
      r := Send(engine, "sp", None);
    }

    method SampleInterval() returns (r: Result<real, Fault>)
      modifies engine.port, engine.table, engine.lock
      ensures Outcome(engine.Now(), r) == Guard(engine.lock.contended, old(engine.Now()), SampleIntervalSpec(old(engine.Now()), engine.dialect))
      ensures !engine.lock.held && engine.lock.releases == old(engine.lock.releases) + 1
    {
      var ok := engine.lock.Obtain();
      if ok {
        r := SampleIntervalHeld();
      } else {
        r := Failure(LockTimeout);
      }
      engine.lock.Release();
    }

    method SampleIntervalHeld() returns (r: Result<real, Fault>)
      modifies engine.port, engine.table
      ensures Outcome(engine.Now(), r) == SampleIntervalSpec(old(engine.Now()), engine.dialect)
    {
      var period :- ReadField(engine, LAMP_PERIOD);
      var end :- ReadField(engine, SAMPLE_END);
      r := Success(Seconds(period.i, end.i));
    }

    method RecordRaw(deferral: int, interval: int, count: int) returns (r: Result<seq<seq<Value>>, Fault>)
      modifies engine.port, engine.table, engine.lock
      ensures Outcome(engine.Now(), r) == Guard(engine.lock.contended, old(engine.Now()), LampRecordSpec(old(engine.Now()), engine.dialect, deferral, interval, count))
      ensures !engine.lock.held && engine.lock.releases == old(engine.lock.releases) + 1
    {
      var ok := engine.lock.Obtain();
      if ok {
        r := RecordHeld(deferral, interval, count);
      } else {
        r := Failure(LockTimeout);
      }
      engine.lock.Release();
    }

    method RecordHeld(deferral: int, interval: int, count: int) returns (r: Result<seq<seq<Value>>, Fault>)
      modifies engine.port, engine.table
      ensures Outcome(engine.Now(), r) == LampRecordSpec(old(engine.Now()), engine.dialect, deferral, interval, count)
    {
      var params := RecordParams(deferral, interval, count);
      if params.None? {
        return Failure(OutOfRange);
      }
      var started := engine.Run("rs", Some(params.value), None);
      if started.Failure? {
        return Failure(started.error);
      }
      var period :- ReadField(engine, LAMP_PERIOD);
      engine.port.Sleep(LampWait(period.i, deferral, interval, count));
      RecordSizes();
      r := Replay(engine, count, LONG_RECORD);
    }
  }
}
