/**
 * The machinery every SPI driver class repeats: look a command up in the
 * shared table, run one transaction, wait its execution time, and decode
 * the response; plus the lock held around each public operation. An
 * `Engine` bundles one driver's SPI device, its command table, the named
 * host lock and the dialect's status rules.
 */
module Engine {
  import opened Wrappers
  import opened Bytes
  import opened Commands
  import opened Bus
  import opened Transact
  import opened Fields

  /** What an operation observes and changes: the SPI link and the shared command table. */
  datatype World = World(link: Link, commands: Option<map<string, Command>>)

  /** The world after an operation, and what it returned or raised. */
  datatype Outcome<T> = Outcome(world: World, result: Result<T, Fault>)

  function Sleep(w: World, us: nat): World
  {
    World(Log(w.link, Slept(us)), w.commands)
  }

  // ---------------------------------------------------------------------------------------------
  // reading a response

  /**
   * A getter that slices `response[a:b]` field after field: the response must
   * be a list holding at least the layout's bytes; a lone byte or None cannot
   * be sliced.
   */
  function Sliced(p: Payload, layout: seq<Kind>): (r: Result<seq<Value>, Fault>)
    ensures r.Success? <==> p.Many? && Size(layout) <= |p.bs|
    ensures r.Success? ==> |r.value| == |layout|
  {
    if p.Many? && Size(layout) <= |p.bs| then Success(Unpack(p.bs, layout).value)
    else Failure(Undecodable)
  }

  /** What a getter sliced packs back into the bytes it was sliced from. */
  lemma SlicedInverts(p: Payload, layout: seq<Kind>)
    requires Sliced(p, layout).Success?
    ensures Pack(layout, Sliced(p, layout).value) == Some(p.bs[..Size(layout)])
  {
    UnpackThenPack(p.bs, layout);
  }

  /** A getter that decodes the whole response as one field: the response must be a list of exactly its width. */
  function Whole(p: Payload, k: Kind): (r: Result<Value, Fault>)
    ensures r.Success? <==> p.Many? && |p.bs| == Width(k)
    ensures r.Success? ==> Fits(k, r.value)
  {
    if p.Many? && |p.bs| == Width(k) then Success(Decode(k, p.bs))
    else Failure(Undecodable)
  }

  /** What a whole-response getter decodes encodes back to the response. */
  lemma WholeInverts(p: Payload, k: Kind)
    requires Whole(p, k).Success?
    ensures Encode(k, Whole(p, k).value) == Some(p.bs)
  {
    DecodeThenEncode(k, p.bs);
  }

  /** `bool(response)`: None and 0x00 are false, as is an empty list. */
  function Truthy(p: Payload): (b: bool)
    ensures p.Nothing? ==> !b
    ensures p.Single? ==> (b <==> p.b != 0)
    ensures p.Many? ==> (b <==> p.bs != [])
  {
    match p
    case Nothing => false
    case Single(x) => x != 0
    case Many(bs) => bs != []
  }

  // ---------------------------------------------------------------------------------------------
  // specifications of the engine's steps

  /** `find(name)` then `_transact(cmd, p1, p2)`. */
  function RunSpec(w: World, d: Dialect, name: string, p1: Option<seq<byte>>, p2: Option<seq<byte>>): Outcome<Payload>
  {
    match Lookup(w.commands, name)
    case Failure(e) => Outcome(w, Failure(NotFound(e)))
    case Success(cmd) =>
      var s := TransactSpec(w.link, d, cmd, p1, p2);
      Outcome(World(s.link, w.commands), s.result)
  }

  /** `find(name)`, then `cmd.return_count = count` on the shared entry, then `_transact`. */
  function CountedSpec(w: World, d: Dialect, name: string, count: int, p1: Option<seq<byte>>, p2: Option<seq<byte>>): Outcome<Payload>
  {
    match Lookup(w.commands, name)
    case Failure(e) => Outcome(w, Failure(NotFound(e)))
    case Success(cmd) =>
      var counted := cmd.(returnCount := Some(count));
      var s := TransactSpec(w.link, d, counted, p1, p2);
      Outcome(World(s.link, Some(w.commands.value[name := counted])), s.result)
  }

  /**
   * `find(name)`, `_transact`, then `time.sleep(cmd.execution_time + extra)`;
   * the sleep raises when the entry has no execution time.
   */
  function SettledSpec(w: World, d: Dialect, name: string, p1: Option<seq<byte>>, p2: Option<seq<byte>>, extra: nat): Outcome<Payload>
  {
    match Lookup(w.commands, name)
    case Failure(e) => Outcome(w, Failure(NotFound(e)))
    case Success(cmd) =>
      var s := TransactSpec(w.link, d, cmd, p1, p2);
      var after := World(s.link, w.commands);
      if s.result.Failure? then Outcome(after, s.result)
      else if cmd.executionTime.None? then Outcome(after, Failure(DelayUnset(cmd)))
      else Outcome(Sleep(after, cmd.executionTime.value + extra), s.result)
  }

  /** A getter: run `name` and slice its response by `layout`. */
  function QuerySpec(w: World, d: Dialect, name: string, layout: seq<Kind>): Outcome<seq<Value>>
  {
    var o := RunSpec(w, d, name, None, None);
    match o.result
    case Failure(e) => Outcome(o.world, Failure(e))
    case Success(p) => Outcome(o.world, Sliced(p, layout))
  }

  /** A getter that decodes the whole response of `name` as one field. */
  function WholeSpec(w: World, d: Dialect, name: string, k: Kind): Outcome<Value>
  {
    var o := RunSpec(w, d, name, None, None);
    match o.result
    case Failure(e) => Outcome(o.world, Failure(e))
    case Success(p) => Outcome(o.world, Whole(p, k))
  }

  /** `_calib_r_*` and `eeprom_read_*`: set the read command's return count to the field's width, send the address, decode. */
  function FetchSpec(w: World, d: Dialect, name: string, address: seq<byte>, k: Kind): (o: Outcome<Value>)
    ensures o.result.Success? ==> Fits(k, o.result.value)
  {
    var o := CountedSpec(w, d, name, Width(k), Some(address), None);
    match o.result
    case Failure(e) => Outcome(o.world, Failure(e))
    case Success(p) => Outcome(o.world, Whole(p, k))
  }

  /** `_calib_w_*` and `eeprom_write_*`: encode the value, send the address and the value bytes, wait the execution time. */
  function StoreSpec(w: World, d: Dialect, name: string, address: seq<byte>, k: Kind, v: Value): Outcome<Payload>
  {
    match Lookup(w.commands, name)
    case Failure(e) => Outcome(w, Failure(NotFound(e)))
    case Success(_) =>
      match Encode(k, v)
      case None => Outcome(w, Failure(OutOfRange))
      case Some(bs) => SettledSpec(w, d, name, Some(address), Some(bs), 0)
  }

  /** The lock around a public operation: when it cannot be obtained nothing else happens. */
  function Guard<T>(contended: bool, w: World, body: Outcome<T>): (o: Outcome<T>)
    ensures contended ==> o == Outcome(w, Failure(LockTimeout))
    ensures !contended ==> o == body
  {
    if contended then Outcome(w, Failure(LockTimeout)) else body
  }

  // ---------------------------------------------------------------------------------------------
  // properties of the steps

  /** A successful fetch read exactly the field's width and decodes to a value of that kind; the new count stays in the table. */
  lemma FetchReadsWidth(w: World, d: Dialect, name: string, address: seq<byte>, k: Kind)
    requires Lookup(w.commands, name).Success?
    requires FetchSpec(w, d, name, address, k).result.Success?
    ensures var o := FetchSpec(w, d, name, address, k);
      Fits(k, o.result.value) &&
      Lookup(o.world.commands, name).Success? && Lookup(o.world.commands, name).value.returnCount == Some(Width(k))
  {
  }

  /** Storing then fetching: the bytes a store sends for a value are the bytes a fetch decodes back to that value. */
  lemma StoredBytesFetchBack(k: Kind, v: Value, bs: seq<byte>)
    requires Encode(k, v) == Some(bs)
    ensures Whole(Many(bs), k) == Success(v)
  {
    EncodeThenDecode(k, v);
  }

  /** A value the encoder refuses is reported before anything is sent. */
  lemma StoreRefusesBeforeSending(w: World, d: Dialect, name: string, address: seq<byte>, k: Kind, v: Value)
    requires Lookup(w.commands, name).Success? && !Fits(k, v)
    ensures StoreSpec(w, d, name, address, k, v) == Outcome(w, Failure(OutOfRange))
  {
  }

  /** A settled command sleeps its execution time, plus any extra, only when the transaction succeeded. */
  lemma SettleOnlyOnSuccess(w: World, d: Dialect, name: string, p1: Option<seq<byte>>, p2: Option<seq<byte>>, extra: nat)
    requires Lookup(w.commands, name).Success?
    ensures var cmd := Lookup(w.commands, name).value;
      var s := TransactSpec(w.link, d, cmd, p1, p2);
      var o := SettledSpec(w, d, name, p1, p2, extra);
      o.world.commands == w.commands &&
      (s.result.Success? && cmd.executionTime.Some? ==>
        o.world.link.trace == s.link.trace + [Slept(cmd.executionTime.value + extra)] && o.result == s.result) &&
      (s.result.Failure? ==> o.world.link == s.link && o.result == s.result)
  {
  }

  /**
   * `find` hands out the shared entry, so a return count set through it
   * persists: a later command of any name leaves the override in place, the
   * next `find` of that name sees the new count on the same entry, and every
   * other name finds what it found before.
   */
  lemma OverridePersists(w: World, d: Dialect, name: string, count: int, p1: Option<seq<byte>>, p2: Option<seq<byte>>,
                         next: string, other: string)
    requires Lookup(w.commands, name).Success?
    ensures var after := RunSpec(CountedSpec(w, d, name, count, p1, p2).world, d, next, None, None).world.commands;
      Lookup(after, name) == Success(Lookup(w.commands, name).value.(returnCount := Some(count))) &&
      (other != name ==> Lookup(after, other) == Lookup(w.commands, other))
  {
  }

  // ---------------------------------------------------------------------------------------------

  class Engine {
    const port: Port
    const table: CommandTable
    const lock: HostLock
    const dialect: Dialect

    constructor (port: Port, table: CommandTable, lock: HostLock)
      ensures this.port == port && this.table == table && this.lock == lock
      ensures dialect == DialectOf(table.family)
    {
      this.port := port;
      this.table := table;
      this.lock := lock;
      dialect := DialectOf(table.family);
    }

    function Now(): World
      reads port, table
    {
      World(port.State(), table.commands)
    }

    method Run(name: string, p1: Option<seq<byte>>, p2: Option<seq<byte>>) returns (r: Result<Payload, Fault>)
      modifies port
      ensures Outcome(Now(), r) == RunSpec(old(Now()), dialect, name, p1, p2)
      ensures !port.isOpen || old(port.isOpen)
    {
      var found := Lookup(table.commands, name);
      if found.Failure? {
        return Failure(NotFound(found.error));
      }
      r := Transact.Transact(port, dialect, found.value, p1, p2);
    }

    method RunCounted(name: string, count: int, p1: Option<seq<byte>>, p2: Option<seq<byte>>) returns (r: Result<Payload, Fault>)
      modifies port, table
      ensures Outcome(Now(), r) == CountedSpec(old(Now()), dialect, name, count, p1, p2)
    {
      var found := Lookup(table.commands, name);
      if found.Failure? {
        return Failure(NotFound(found.error));
      }
      table.SetReturnCount(name, Some(count));
      r := Transact.Transact(port, dialect, table.commands.value[name], p1, p2);
    }

    method RunSettled(name: string, p1: Option<seq<byte>>, p2: Option<seq<byte>>, extra: nat) returns (r: Result<Payload, Fault>)
      modifies port
      ensures Outcome(Now(), r) == SettledSpec(old(Now()), dialect, name, p1, p2, extra)
    {
      var found := Lookup(table.commands, name);
      if found.Failure? {
        return Failure(NotFound(found.error));
      }
      var cmd := found.value;
      r := Transact.Transact(port, dialect, cmd, p1, p2);
      if r.Success? {
        if cmd.executionTime.None? {
          r := Failure(DelayUnset(cmd));
        } else {
          port.Sleep(cmd.executionTime.value + extra);
        }
      }
    }

    method Query(name: string, layout: seq<Kind>) returns (r: Result<seq<Value>, Fault>)
      modifies port
      ensures Outcome(Now(), r) == QuerySpec(old(Now()), dialect, name, layout)
    {
      var response :- Run(name, None, None);
      r := Sliced(response, layout);
    }

    method ReadWhole(name: string, k: Kind) returns (r: Result<Value, Fault>)
      modifies port
      ensures Outcome(Now(), r) == WholeSpec(old(Now()), dialect, name, k)
    {
      var response :- Run(name, None, None);
      r := Whole(response, k);
    }

    method Fetch(name: string, address: seq<byte>, k: Kind) returns (r: Result<Value, Fault>)
      modifies port, table
      ensures Outcome(Now(), r) == FetchSpec(old(Now()), dialect, name, address, k)
    {
      var response :- RunCounted(name, Width(k), Some(address), None);
      r := Whole(response, k);
    }

    method Store(name: string, address: seq<byte>, k: Kind, v: Value) returns (r: Result<Payload, Fault>)
      modifies port
      ensures Outcome(Now(), r) == StoreSpec(old(Now()), dialect, name, address, k, v)
    {
      var found := Lookup(table.commands, name);
      if found.Failure? {
        return Failure(NotFound(found.error));
      }
      var bs := Encode(k, v);
      if bs.None? {
        return Failure(OutOfRange);
      }
      r := RunSettled(name, Some(address), Some(bs.value), 0);
    }
  }
}
