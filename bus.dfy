/**
 * The collaborators the drivers talk to: the SPI device, the host's sleep,
 * the inter-process lock and the power-switch line. The SPI device and the
 * sleeps share one trace so that the order of transfers and delays can be
 * stated; what the device clocks out is a queue fixed in advance.
 */
module Bus {
  import opened Bytes

  datatype Event = Opened | Closed | Wrote(data: seq<byte>) | Read(data: seq<byte>) | Slept(us: nat)

  /** The observable state of the link: what happened so far, and what the device has yet to clock out. */
  datatype Link = Link(trace: seq<Event>, incoming: seq<byte>)

  /**
   * The bytes `read_bytes(n)` returns: the next `n` queued bytes, and 0x00 for
   * every clock once the device has nothing more to send.
   */
  function Clocked(incoming: seq<byte>, n: nat): (bs: seq<byte>)
    ensures |bs| == n
    ensures forall i :: 0 <= i < n ==> bs[i] == (if i < |incoming| then incoming[i] else 0)
  {
    if n <= |incoming| then incoming[..n] else incoming + seq(n - |incoming|, _ => 0)
  }

  /** The queue after `n` bytes were clocked out. */
  function Drained(incoming: seq<byte>, n: nat): (rest: seq<byte>)
    ensures |rest| == if n <= |incoming| then |incoming| - n else 0
    ensures n <= |incoming| ==> incoming == Clocked(incoming, n) + rest
  {
    if n <= |incoming| then incoming[n..] else []
  }

  function Log(l: Link, e: Event): Link
  {
    Link(l.trace + [e], l.incoming)
  }

  function ReadOn(l: Link, n: nat): Link
  {
    Link(l.trace + [Read(Clocked(l.incoming, n))], Drained(l.incoming, n))
  }

  /** Reading `a` bytes and then `b` bytes clocks out what reading `a + b` at once would. */
  lemma ReadsCompose(incoming: seq<byte>, a: nat, b: nat)
    ensures Clocked(incoming, a) + Clocked(Drained(incoming, a), b) == Clocked(incoming, a + b)
    ensures Drained(Drained(incoming, a), b) == Drained(incoming, a + b)
  {
    var left := Clocked(incoming, a) + Clocked(Drained(incoming, a), b);
    forall i | 0 <= i < a + b
      ensures left[i] == Clocked(incoming, a + b)[i]
    {
      if i >= a && a > |incoming| {
        assert Drained(incoming, a) == [];
      }
    }
  }

  class Port {
    var isOpen: bool
    var trace: seq<Event>
    var incoming: seq<byte>

    constructor (replies: seq<byte>)
      ensures !isOpen && trace == [] && incoming == replies
    {
      isOpen := false;
      trace := [];
      incoming := replies;
    }

    function State(): Link
      reads this
    {
      Link(trace, incoming)
    }

    method Open()
      modifies this
      ensures isOpen && State() == Log(old(State()), Opened)
    {
      isOpen := true;
      trace := trace + [Opened];
    }

    method Close()
      modifies this
      ensures !isOpen && State() == Log(old(State()), Closed)
    {
      isOpen := false;
      trace := trace + [Closed];
    }

    method Xfer(data: seq<byte>)
      modifies this
      ensures isOpen == old(isOpen) && State() == Log(old(State()), Wrote(data))
    {
      trace := trace + [Wrote(data)];
    }

    method ReadBytes(n: nat) returns (bs: seq<byte>)
      modifies this
      ensures bs == Clocked(old(incoming), n)
      ensures isOpen == old(isOpen) && State() == ReadOn(old(State()), n)
    {
      bs := Clocked(incoming, n);
      trace := trace + [Read(bs)];
      incoming := Drained(incoming, n);
    }

    /** The host's `time.sleep`, in microseconds. */
    method Sleep(us: nat)
      modifies this
      ensures isOpen == old(isOpen) && State() == Log(old(State()), Slept(us))
    {
      trace := trace + [Slept(us)];
    }
  }

  /**
   * The named inter-process lock. Whether another process holds it is the
   * environment's choice (`contended`); acquiring then times out.
   */
  class HostLock {
    var contended: bool
    ghost var held: bool
    ghost var releases: nat

    constructor (contended: bool)
      ensures this.contended == contended && !held && releases == 0
    {
      this.contended := contended;
      held := false;
      releases := 0;
    }

    method Obtain() returns (ok: bool)
      modifies this`held
      ensures ok == !contended
      ensures held == (old(held) || ok)
    {
      ok := !contended;
      if ok {
        held := true;
      }
    }

    method Release()
      modifies this`held, this`releases
      ensures !held && releases == old(releases) + 1
    {
      held := false;
      releases := releases + 1;
    }
  }

  /** The `ndir_power` line of the board's IO object: `true` is HIGH, `false` is LOW. */
  class PowerLine {
    var level: bool

    constructor (level: bool)
      ensures this.level == level
    {
      this.level := level;
    }

    method Drive(level: bool)
      modifies this
      ensures this.level == level
    {
      this.level := level;
    }
  }
}
