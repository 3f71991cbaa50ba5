/**
 * The legacy `NDIR` class (scs_ndir/gas/ndir.py): byte-at-a-time reads with a
 * transfer delay before each, packing of two bytes as a signed 16-bit value
 * and of four as a binary32 word that is dropped when it is a NaN, power
 * switching with no delay, and the `sample`/`firmware` session that only
 * opens and closes the device under the lock.
 */
module LegacyNdir {
  import opened Wrappers
  import opened Bytes
  import opened Bus
  import opened Transact

  /** `__TRANSFER_DELAY`, 20 microseconds. */
  const TRANSFER_DELAY: nat := 20

  /** `__pack_int`: two bytes as a signed 16-bit value, low byte first; every such value has exactly these bytes. */
  function PackInt(bs: seq<byte>): (v: int)
    requires |bs| == 2
    ensures -0x8000 <= v < 0x8000
    ensures EncodeI16(v) == bs
  {
    I16RoundTrip(0, bs);
    DecodeI16(bs)
  }

  /** `__pack_float`: four bytes as a binary32 word, or nothing exactly when the word is a NaN. */
  function PackFloat(bs: seq<byte>): (r: Option<Float32>)
    requires |bs| == 4
    ensures r.None? <==> IsNaNBytes(bs)
    ensures r.Some? ==> !IsNaN(r.value) && EncodeFloat(r.value) == bs
  {
    NaNByBytes(bs);
    EncodeDecodeU32(bs);
    var w := DecodeFloat(bs);
    if IsNaN(w) then None else Some(w)
  }

  /** Every value in range survives packing its two bytes. */
  lemma PackIntRoundTrip(v: int)
    requires -0x8000 <= v < 0x8000
    ensures PackInt(EncodeI16(v)) == v
  {
    I16RoundTrip(v, EncodeI16(v));
  }

  /** Every word that is not a NaN survives packing its four bytes, and every NaN is read as nothing. */
  lemma PackFloatRoundTrip(w: Float32)
    ensures PackFloat(EncodeFloat(w)) == if IsNaN(w) then None else Some(w)
  {
    var bs := EncodeFloat(w);
    NaNByBytes(bs);
  }

  /** What `n` byte-at-a-time reads log: each single-byte read is preceded by the transfer delay. */
  function ByteReads(incoming: seq<byte>, n: nat): (es: seq<Event>)
    ensures |es| == 2 * n
  {
    if n == 0 then []
    else ByteReads(incoming, n - 1) + [Slept(TRANSFER_DELAY), Read(Clocked(Drained(incoming, n - 1), 1))]
  }

  /** The reads alternate exactly: a delay at every even position, a one-byte read at every odd one. */
  lemma {:induction false} ByteReadsShape(incoming: seq<byte>, n: nat)
    ensures forall k :: 0 <= k < n ==>
      ByteReads(incoming, n)[2 * k] == Slept(TRANSFER_DELAY) &&
      ByteReads(incoming, n)[2 * k + 1].Read? && |ByteReads(incoming, n)[2 * k + 1].data| == 1
  {
    if n > 0 {
      ByteReadsShape(incoming, n - 1);
      var es := ByteReads(incoming, n);
      var prefix := ByteReads(incoming, n - 1);
      assert es == prefix + [Slept(TRANSFER_DELAY), Read(Clocked(Drained(incoming, n - 1), 1))];
      forall k | 0 <= k < n
        ensures es[2 * k] == Slept(TRANSFER_DELAY) && es[2 * k + 1].Read? && |es[2 * k + 1].data| == 1
      {
        if k < n - 1 {
          assert es[2 * k] == prefix[2 * k] && es[2 * k + 1] == prefix[2 * k + 1];
        }
      }
    }
  }

  /** What `sample` and `firmware` log: the device is closed whether or not the lock was obtained, and opened only when it was. */
  function SessionEvents(contended: bool): (es: seq<Event>)
    ensures |es| > 0 && es[|es| - 1] == Closed
    ensures Opened in es <==> !contended
  {
    if contended then [Closed] else [Opened, Closed]
  }

  class LegacyNdir {
    const io: PowerLine
    const port: Port
    const lock: HostLock

    constructor (io: PowerLine, port: Port, lock: HostLock)
      ensures this.io == io && this.port == port && this.lock == lock
    {
      this.io := io;
      this.port := port;
      this.lock := lock;
    }

    /** `power_on`: drive LOW, with no delay. */
    method PowerOn()
      modifies io
      ensures !io.level
    {
      io.Drive(false);
    }

    /** `power_off`: drive HIGH. */
    method PowerOff()
      modifies io
      ensures io.level
    {
      io.Drive(true);
    }

    /** `sample`: obtain the lock, open the device; then, whatever happened, close it and release the lock. */
    method Sample() returns (r: Result<(), Fault>)
      modifies port, lock
      ensures !port.isOpen && port.State() == Link(old(port.trace) + SessionEvents(lock.contended), old(port.incoming))
      ensures r == if lock.contended then Failure(LockTimeout) else Success(())
      ensures !lock.held && lock.releases == old(lock.releases) + 1
    {
      r := Session();
    }

    /** `firmware`: the same session as `sample`. */
    method Firmware() returns (r: Result<(), Fault>)
      modifies port, lock
      ensures !port.isOpen && port.State() == Link(old(port.trace) + SessionEvents(lock.contended), old(port.incoming))
      ensures r == if lock.contended then Failure(LockTimeout) else Success(())
      ensures !lock.held && lock.releases == old(lock.releases) + 1
    {
      r := Session();
    }

    method Session() returns (r: Result<(), Fault>)
      modifies port, lock
      ensures !port.isOpen && port.State() == Link(old(port.trace) + SessionEvents(lock.contended), old(port.incoming))
      ensures r == if lock.contended then Failure(LockTimeout) else Success(())
      ensures !lock.held && lock.releases == old(lock.releases) + 1
    {
      var ok := lock.Obtain();
      if ok {
        port.Open();
        r := Success(());
      } else {
        r := Failure(LockTimeout);
      }
      port.Close();
      lock.Release();
    }

    /** `n` single-byte reads, each after the transfer delay: the bytes are those one read of `n` would give. */
    method ReadSlowly(n: nat) returns (bs: seq<byte>)
      modifies port
      ensures bs == Clocked(old(port.incoming), n)
      ensures port.isOpen == old(port.isOpen)
      ensures port.State() == Link(old(port.trace) + ByteReads(old(port.incoming), n), Drained(old(port.incoming), n))
    {
      ghost var incoming := port.incoming;
      ghost var trace := port.trace;
      bs := [];
      var i := 0;
      while i < n
        invariant 0 <= i <= n
        invariant bs == Clocked(incoming, i)
        invariant port.isOpen == old(port.isOpen)
        invariant port.incoming == Drained(incoming, i)
        invariant port.trace == trace + ByteReads(incoming, i)
      {
        port.Sleep(TRANSFER_DELAY);
        var b := port.ReadBytes(1);
        ReadsCompose(incoming, i, 1);
        bs := bs + b;
        i := i + 1;
      }
    }

    /** `__read_byte`. */
    method ReadByte() returns (b: byte)
      modifies port
      ensures b == Clocked(old(port.incoming), 1)[0]
      ensures port.State() == Link(old(port.trace) + ByteReads(old(port.incoming), 1), Drained(old(port.incoming), 1))
    {
      var bs := ReadSlowly(1);
      b := bs[0];
    }

    /** `__read_int`: two reads, packed as a signed 16-bit value. */
    method ReadInt() returns (v: int)
      modifies port
      ensures v == PackInt(Clocked(old(port.incoming), 2))
      ensures port.State() == Link(old(port.trace) + ByteReads(old(port.incoming), 2), Drained(old(port.incoming), 2))
    {
      var bs := ReadSlowly(2);
      v := PackInt(bs);
    }

    /** `__read_float`: four reads, packed as a binary32 word, or nothing for a NaN. */
    method ReadFloat() returns (r: Option<Float32>)
      modifies port
      ensures r == PackFloat(Clocked(old(port.incoming), 4))
      ensures port.State() == Link(old(port.trace) + ByteReads(old(port.incoming), 4), Drained(old(port.incoming), 4))
    {
      var bs := ReadSlowly(4);
      r := PackFloat(bs);
    }
  }
}
