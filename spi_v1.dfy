/**
 * The `SPINDIRv1` driver class (src/scs_ndir/gas/spi_ndir_v1/spi_ndir_v1.py):
 * its own power switching, active low, and `cmd_record_raw` with records of
 * three uint16 values. The getters, status, lamp, reset and test commands it
 * shares with the other dialects are in Operations, and its calibration
 * store in CalibStore.
 */
module SpiV1 {
  import opened Wrappers
  import opened Bus
  import opened Transact
  import opened Fields
  import opened Engine
  import opened Operations
  import opened Power

  /** `__BOOT_DELAY`, 3.5 seconds. */
  const BOOT_DELAY: nat := 3_500_000

  class SpiNdirV1 {
    const engine: Engine
    const io: PowerLine

    constructor (engine: Engine, io: PowerLine)
      ensures this.engine == engine && this.io == io
    {
      this.engine := engine;
      this.io := io;
    }

    function Supply(): Supply
      reads io, engine.port
    {
      Power.Supply(io.level, engine.port.State())
    }

    /** `power_on`: the line is driven LOW and the sensor given its boot delay, unless it was already LOW. */
    method PowerOn()
      modifies io, engine.port
      ensures Supply() == SwitchOn(false, old(Supply()), BOOT_DELAY)
    {
      if !io.level {
        return;
      }
      io.Drive(false);
      engine.port.Sleep(BOOT_DELAY);
    }

    /** `power_off`: the line is driven HIGH, unless it already was. */
    method PowerOff()
      modifies io
      ensures Supply() == SwitchOff(false, old(Supply()))
    {
      if io.level {
        return;
      }
      io.Drive(true);
    }

    /** `cmd_record_raw`: wait the recording out after `rs`, then play back `count` records of six bytes. */
    method RecordRaw(deferral: int, interval: int, count: int) returns (r: Result<seq<seq<Value>>, Fault>)
      modifies engine.port, engine.table, engine.lock
      ensures (RecordSizes(); Outcome(engine.Now(), r) ==
        Guard(engine.lock.contended, old(engine.Now()), RecordSpec(old(engine.Now()), engine.dialect, deferral, interval, count, SHORT_RECORD, WholeRecording)))
      ensures !engine.lock.held && engine.lock.releases == old(engine.lock.releases) + 1
    {
      RecordSizes();
      r := Record(engine, deferral, interval, count, SHORT_RECORD, WholeRecording);
    }
  }
}
