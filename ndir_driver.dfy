/**
 * The older `NDIR` driver class (src/scs_ndir/gas/ndir.py): power switching
 * that drives the line and waits on every call, the 100-sample window, the
 * sample-engine dump, the test command that starves `mr` of its payload,
 * the by-index EEPROM accessors, and `cmd_record_raw`, which waits only for
 * the deferral. Its getters, status, lamp and reset commands are in
 * Operations. Its status rules (only 0x00 is "None received") come with
 * its command table, through DialectOf.
 */
module NdirDriver {
  import opened Wrappers
  import opened Bytes
  import opened Commands
  import opened Bus
  import opened Transact
  import opened Fields
  import opened Engine
  import opened Operations
  import opened Power

  /** `__BOOT_DELAY`, 2.5 seconds. */
  const BOOT_DELAY: nat := 2_500_000

  /** The entry of `mr` in the NDIR table, and of MEASURE_RAW among the NDIR getters. */
  const MR_ENTRY: nat := 14
  const MR_GETTER: nat := 3

  // ---------------------------------------------------------------------------------------------
  // the sample window

  /** `cmd_sample_window`: `sw`, its response read as (pile_ref, pile_act, thermistor) triples of uint16. */
  function SampleWindowSpec(w: World, d: Dialect): Outcome<seq<seq<Value>>>
  {
    var o := RunSpec(w, d, "sw", None, None);
    RecordSizes();
    match o.result
    case Failure(e) => Outcome(o.world, Failure(e))
    case Success(p) => Outcome(o.world, PlaybackOf(p, SHORT_RECORD))
  }

  /** With the table as initialised and the device accepting `sw`, the window is read from the 600 bytes after the status byte. */
  lemma SampleWindowReads600(w: World)
    requires w.commands == Some(Static(Ndir))
    requires Classify(DialectOf(Ndir), Clocked(w.link.incoming, 1)[0]).None?
    ensures (RecordSizes(); SampleWindowSpec(w, DialectOf(Ndir)).result == Success(Records(Clocked(w.link.incoming, 601)[1..], SHORT_RECORD)))
    ensures |Clocked(w.link.incoming, 601)[1..]| == 600
  {
    DictFinds(NdirEntries(), 22);
    var cmd := Static(Ndir)["sw"];
    assert Lookup(w.commands, "sw") == Success(cmd);
    ReadsExactlyCount(w.link, DialectOf(Ndir), cmd, None, None);
  }

  /**
   * With the table as initialised and the device accepting `sw`, the window
   * is exactly 100 triples, triple k being the three uint16 at offset 6k of
   * the 600 bytes clocked out after the status byte.
   */
  lemma SampleWindowHolds100(w: World)
    requires w.commands == Some(Static(Ndir))
    requires Classify(DialectOf(Ndir), Clocked(w.link.incoming, 1)[0]).None?
    ensures var o := SampleWindowSpec(w, DialectOf(Ndir));
      var bs := Clocked(w.link.incoming, 601)[1..];
      o.result.Success? && |o.result.value| == 100 &&
      forall k :: 0 <= k < 100 ==> o.result.value[k] == Unpack(bs[6 * k..], SHORT_RECORD).value
  {
    SampleWindowReads600(w);
    RecordSizes();
    RecordsSplit(Clocked(w.link.incoming, 601)[1..], SHORT_RECORD, 100);
  }

  // ---------------------------------------------------------------------------------------------
  // the sample dump

  /** `cmd_sample_dump`: the single-shot flag, the running flag and the sample index. */
  datatype Dump = Dump(singleShot: byte, isRunning: byte, index: int)

  /** The response as a dump: two bytes as they are, then a uint16; a shorter or non-list response raises. */
  function DumpOf(p: Payload): (r: Result<Dump, Fault>)
    ensures r.Success? <==> p.Many? && |p.bs| >= 4
    ensures r.Success? ==> 0 <= r.value.index < U16_LIMIT
  {
    if p.Many? && |p.bs| >= 4 then Success(Dump(p.bs[0], p.bs[1], DecodeU16(p.bs[2..4])))
    else Failure(Undecodable)
  }

  /** The four bytes a device sends for a dump. */
  function DumpBytes(x: Dump): (bs: seq<byte>)
    requires 0 <= x.index < U16_LIMIT
    ensures |bs| == 4
  {
    [x.singleShot, x.isRunning] + EncodeU16(x.index)
  }

  /** Every dump the device can send is read back as itself. */
  lemma DumpRoundTrip(x: Dump)
    requires 0 <= x.index < U16_LIMIT
    ensures DumpOf(Many(DumpBytes(x))) == Success(x)
  {
    var bs := DumpBytes(x);
    assert bs[2..4] == EncodeU16(x.index);
  }

  function SampleDumpSpec(w: World, d: Dialect): Outcome<Dump>
  {
    var o := RunSpec(w, d, "sd", None, None);
    match o.result
    case Failure(e) => Outcome(o.world, Failure(e))
    case Success(p) => Outcome(o.world, DumpOf(p))
  }

  /** With the table as initialised and the device accepting `sd`, the dump is read from the four bytes after the status byte. */
  lemma SampleDumpReadsFour(w: World)
    requires w.commands == Some(Static(Ndir))
    requires Classify(DialectOf(Ndir), Clocked(w.link.incoming, 1)[0]).None?
    ensures var o := SampleDumpSpec(w, DialectOf(Ndir));
      var bs := Clocked(w.link.incoming, 5)[1..];
      o.result == Success(Dump(bs[0], bs[1], DecodeU16(bs[2..4])))
  {
    DictFinds(NdirEntries(), 23);
    var cmd := Static(Ndir)["sd"];
    assert Lookup(w.commands, "sd") == Success(cmd);
    ReadsExactlyCount(w.link, DialectOf(Ndir), cmd, None, None);
  }

  // ---------------------------------------------------------------------------------------------
  // the failing test command

  /** `cmd_fail`, as written: the shared `mr` entry's return count is set to 0 and `mr` is sent. */
  function CmdFailSpec(w: World, d: Dialect): Outcome<()>
  {
    Discard(CountedSpec(w, d, "mr", 0, None, None))
  }

  /**
   * As written, `cmd_fail` breaks every later `measure_raw`: the zero count
   * stays in the shared table, so even a device that accepts `mr` and sends
   * its six bytes leaves `measure_raw` with no payload to slice.
   */
  lemma CmdFailBreaksMeasureRaw(w: World, d: Dialect, later: Link)
    requires Sendable(w, "mr")
    requires Classify(d, Clocked(later.incoming, 1)[0]).None?
    ensures var after := CmdFailSpec(w, d).world;
      Lookup(after.commands, "mr").value.returnCount == Some(0) &&
      GetSpec(World(later, after.commands), d, MEASURE_RAW).result == Failure(Undecodable)
  {
    var after := CmdFailSpec(w, d).world;
    var cmd := Lookup(after.commands, "mr").value;
    NoCountNoPayload(later, d, cmd, None, None);
  }

  /** `cmd_fail` as its comment intends: the same traffic, with `mr`'s return count put back afterwards. */
  function CmdFailScopedSpec(w: World, d: Dialect): Outcome<()>
  {
    var o := CmdFailSpec(w, d);
    Outcome(World(o.world.link, w.commands), o.result)
  }

  /**
   * The scoped `cmd_fail` sends and reads what the one as written does and
   * leaves the table as it found it, so a `measure_raw` after it on a table
   * as initialised still decodes its three values.
   */
  lemma CmdFailScopedKeepsMeasureRaw(w: World, later: Link)
    requires w.commands == Some(Static(Ndir))
    requires Classify(DialectOf(Ndir), Clocked(later.incoming, 1)[0]).None?
    ensures var o := CmdFailScopedSpec(w, DialectOf(Ndir));
      o.world.link == CmdFailSpec(w, DialectOf(Ndir)).world.link && o.world.commands == w.commands &&
      GetSpec(World(later, o.world.commands), DialectOf(Ndir), MEASURE_RAW).result.Success?
  {
    FreshGetterDecodes(Ndir, World(later, w.commands), MR_GETTER);
  }

  // ---------------------------------------------------------------------------------------------
  // the EEPROM accessors

  /**
   * `eeprom_read_*`: `er` with its return count set to the width of the kind,
   * and the index as the one parameter byte. The driver has accessors for
   * U16, U32 and F32 only; the methods below refuse I32.
   */
  function EepromReadSpec(w: World, d: Dialect, index: byte, k: Kind): Outcome<Value>
  {
    FetchSpec(w, d, "er", [index], k)
  }

  /** `eeprom_write_*`: `ew` with the index, then the encoded value, then a wait of its execution time. */
  function EepromWriteSpec(w: World, d: Dialect, index: byte, k: Kind, v: Value): Outcome<Payload>
  {
    StoreSpec(w, d, "ew", [index], k, v)
  }

  /**
   * A read sends `er` and the index byte, and the return count it sets
   * (2 for an unsigned int, 4 for an unsigned long or a float) stays in
   * the shared table; a value it returns is of the kind asked for.
   */
  lemma EepromReadSends(w: World, d: Dialect, index: byte, k: Kind)
    requires Sendable(w, "er")
    ensures var o := EepromReadSpec(w, d, index, k);
      Writes(o.world.link.trace) == Writes(w.link.trace) + [NameBytes("er").value, [index]] &&
      Lookup(o.world.commands, "er").Success? && Lookup(o.world.commands, "er").value.returnCount == Some(Width(k)) &&
      (o.result.Success? ==> Fits(k, o.result.value))
  {
    FetchSends(w, d, "er", [index], k);
  }

  /**
   * A write of a value that fits sends `ew`, the index byte and the value's
   * bytes, which an `er` of the same kind decodes back to the value; when
   * the device accepts it the host then waits `ew`'s execution time.
   */
  lemma EepromWriteSends(w: World, d: Dialect, index: byte, k: Kind, v: Value)
    requires Sendable(w, "ew") && Fits(k, v)
    ensures var o := EepromWriteSpec(w, d, index, k, v);
      var bs := Encode(k, v).value;
      var t := o.world.link.trace;
      o.world.commands == w.commands && Whole(Many(bs), k) == Success(v) &&
      Writes(t) == Writes(w.link.trace) + [NameBytes("ew").value, [index], bs] &&
      (o.result.Success? ==> t[|t| - 1] == Slept(Lookup(w.commands, "ew").value.executionTime.value))
  {
    var bs := Encode(k, v).value;
    EncodeThenDecode(k, v);
    SettledSends(w, d, "ew", Some([index]), Some(bs), 0);
    assert Frame(NameBytes("ew").value, Some([index]), Some(bs)) == [NameBytes("ew").value, [index], bs];
  }

  // ---------------------------------------------------------------------------------------------

  class SpiNdir {
    const engine: Engine
    const io: PowerLine

    constructor (engine: Engine, io: PowerLine)
      ensures this.engine == engine && this.io == io
    {
      this.engine := engine;
      this.io := io;
    }

    function Supply(): Supply
      reads io, engine.port
    {
      Power.Supply(io.level, engine.port.State())
    }

    /** `power_on`: drive LOW and wait the boot delay, on every call. */
    method PowerOn()
      modifies io, engine.port
      ensures Supply() == ForceOn(old(Supply()), BOOT_DELAY)
    {
      io.Drive(false);
      engine.port.Sleep(BOOT_DELAY);
    }

    /** `power_off`: drive HIGH. */
    method PowerOff()
      modifies io
      ensures Supply() == ForceOff(old(Supply()))
    {
      io.Drive(true);
    }

    method SampleWindow() returns (r: Result<seq<seq<Value>>, Fault>)
      modifies engine.port, engine.lock
      ensures Outcome(engine.Now(), r) == Guard(engine.lock.contended, old(engine.Now()), SampleWindowSpec(old(engine.Now()), engine.dialect))
      ensures !engine.lock.held && engine.lock.releases == old(engine.lock.releases) + 1
    {
      var ok := engine.lock.Obtain();
      if ok {
        r := SampleWindowHeld();
      } else {
        r := Failure(LockTimeout);
      }
      engine.lock.Release();
    }

    method SampleWindowHeld() returns (r: Result<seq<seq<Value>>, Fault>)
      modifies engine.port
      ensures Outcome(engine.Now(), r) == SampleWindowSpec(old(engine.Now()), engine.dialect)
    {
      var response :- engine.Run("sw", None, None);
      RecordSizes();
      match response
      case Nothing =>
        r := Success([]);
      case Single(_) =>
        r := Failure(Undecodable);
      case Many(bs) =>
        var values := Fields.Playback(bs, SHORT_RECORD);
        r := Success(values);
    }

    method SampleDump() returns (r: Result<Dump, Fault>)
      modifies engine.port, engine.lock
      ensures Outcome(engine.Now(), r) == Guard(engine.lock.contended, old(engine.Now()), SampleDumpSpec(old(engine.Now()), engine.dialect))
      ensures !engine.lock.held && engine.lock.releases == old(engine.lock.releases) + 1
    {
      var ok := engine.lock.Obtain();
      if ok {
        var response := engine.Run("sd", None, None);
        r := if response.Success? then DumpOf(response.value) else Failure(response.error);
      } else {
        r := Failure(LockTimeout);
      }
      engine.lock.Release();
    }

    /** `cmd_fail`, as written: the zero return count is left in the shared table. */
    method CmdFail() returns (r: Result<(), Fault>)
      modifies engine.port, engine.table, engine.lock
      ensures Outcome(engine.Now(), r) == Guard(engine.lock.contended, old(engine.Now()), CmdFailSpec(old(engine.Now()), engine.dialect))
      ensures !engine.lock.held && engine.lock.releases == old(engine.lock.releases) + 1
    {
      var ok := engine.lock.Obtain();
      if ok {
        var response := engine.RunCounted("mr", 0, None, None);
        r := if response.Success? then Success(()) else Failure(response.error);
      } else {
        r := Failure(LockTimeout);
      }
      engine.lock.Release();
    }

    /** `cmd_fail` with the override scoped to the call: the entry's count is restored afterwards. */
    method CmdFailScoped() returns (r: Result<(), Fault>)
      modifies engine.port, engine.table, engine.lock
      ensures Outcome(engine.Now(), r) == Guard(engine.lock.contended, old(engine.Now()), CmdFailScopedSpec(old(engine.Now()), engine.dialect))
      ensures !engine.lock.held && engine.lock.releases == old(engine.lock.releases) + 1
    {
      var ok := engine.lock.Obtain();
      if ok {
        var found := Lookup(engine.table.commands, "mr");
        ghost var m0 := engine.table.commands;
        var response := engine.RunCounted("mr", 0, None, None);
        r := if response.Success? then Success(()) else Failure(response.error);
        if found.Success? {
          ghost var counted := found.value.(returnCount := Some(0));
          assert engine.table.commands == Some(m0.value["mr" := counted]);
          engine.table.SetReturnCount("mr", found.value.returnCount);
          assert counted.(returnCount := found.value.returnCount) == found.value;
          assert m0.value["mr" := counted]["mr" := found.value] == m0.value;
        }
      } else {
        r := Failure(LockTimeout);
      }
      engine.lock.Release();
    }

    /** `eeprom_read_unsigned_int`, `_unsigned_long` and `_float`: no lock is taken, and there is no signed accessor. */
    method EepromRead(index: byte, k: Kind) returns (r: Result<Value, Fault>)
      requires k != I32
      modifies engine.port, engine.table
      ensures Outcome(engine.Now(), r) == EepromReadSpec(old(engine.Now()), engine.dialect, index, k)
    {
      r := engine.Fetch("er", [index], k);
    }

    /** `eeprom_write_unsigned_int`, `_unsigned_long` and `_float`: no lock is taken, and there is no signed accessor. */
    method EepromWrite(index: byte, k: Kind, v: Value) returns (r: Result<Payload, Fault>)
      requires k != I32
      modifies engine.port
      ensures Outcome(engine.Now(), r) == EepromWriteSpec(old(engine.Now()), engine.dialect, index, k, v)
    {
      r := engine.Store("ew", [index], k, v);
    }

    /** `cmd_record_raw`: wait the deferral past `rs`'s execution time, then play back `count` records of six bytes. */
    method RecordRaw(deferral: int, interval: int, count: int) returns (r: Result<seq<seq<Value>>, Fault>)
      modifies engine.port, engine.table, engine.lock
      ensures (RecordSizes(); Outcome(engine.Now(), r) ==
        Guard(engine.lock.contended, old(engine.Now()), RecordSpec(old(engine.Now()), engine.dialect, deferral, interval, count, SHORT_RECORD, DeferralOnly)))
      ensures !engine.lock.held && engine.lock.releases == old(engine.lock.releases) + 1
    {
      RecordSizes();
      r := Record(engine, deferral, interval, count, SHORT_RECORD, DeferralOnly);
    }
  }
}
