/**
 * One SPI transaction (`_transact` in the x1, v1 and t1f1 drivers, `_execute`
 * in the older ndir driver): open the session, send the command name and up to
 * two parameter groups, wait the response time, read and classify one status
 * byte, then read the command's return bytes. The session is closed on every
 * path out.
 */
module Transact {
  import opened Wrappers
  import opened Bytes
  import opened Commands
  import opened Bus

  /** Microseconds before each parameter group and before the payload read (0.001 s). */
  const PARAM_DELAY: nat := 1_000

  const RESPONSE_ACK: byte := 0x01
  const RESPONSE_NACK: byte := 0x02
  const RESPONSE_BUSY: byte := 0x03

  /** How a dialect reads the status byte: which values mean "nothing answered", and whether BUSY is an error. */
  datatype Dialect = Dialect(noneStatuses: set<byte>, busyChecked: bool)

  function DialectOf(f: Family): Dialect
  {
    match f
    case X1 => Dialect({0x00, 0xff}, true)
    case V1 => Dialect({0x00, 0xff}, true)
    case T1F1 => Dialect({0x00, 0xff}, false)
    case Ndir => Dialect({0x00}, true)
  }

  datatype Problem = NoneReceived | NackReceived | BusyReceived

  type Params = (Option<seq<byte>>, Option<seq<byte>>)

  /** Every way an operation can end in an exception. */
  datatype Fault =
    | Rejected(problem: Problem, status: byte, cmd: Command, params: Params)  // NDIRException
    | NotFound(error: LookupError)     // `find` of an unknown name, or before `init`
    | Unsendable(cmd: Command)         // a name that has no two byte-sized characters
    | CountUnset(cmd: Command)         // `return_count` is None when compared with 1
    | DelayUnset(cmd: Command)         // `time.sleep(None)`
    | LockTimeout                      // `obtain_lock` gave up
    | OutOfRange                       // a value the encoder refuses
    | Undecodable                      // a response of the wrong shape for its decoder

  /** What `_transact` returns: None, the lone byte, or the list of bytes. */
  datatype Payload = Nothing | Single(b: byte) | Many(bs: seq<byte>)

  /** The link after a step, and what the step returned or raised. */
  datatype Step<T> = Step(link: Link, result: Result<T, Fault>)

  function Classify(d: Dialect, status: byte): (r: Option<Problem>)
    ensures r == Some(NoneReceived) <==> status in d.noneStatuses
    ensures r == Some(NackReceived) <==> status !in d.noneStatuses && status == RESPONSE_NACK
    ensures r == Some(BusyReceived) <==> status !in d.noneStatuses && d.busyChecked && status == RESPONSE_BUSY
  {
    if status in d.noneStatuses then Some(NoneReceived)
    else if status == RESPONSE_NACK then Some(NackReceived)
    else if d.busyChecked && status == RESPONSE_BUSY then Some(BusyReceived)
    else None
  }

  /** A parameter group is sent only when Python finds it truthy: present and non-empty. */
  predicate Given(p: Option<seq<byte>>)
  {
    p.Some? && |p.value| > 0
  }

  /** What goes on the wire for one parameter group: nothing, or the delay and the group. */
  function Group(p: Option<seq<byte>>): seq<Event>
  {
    if Given(p) then [Slept(PARAM_DELAY), Wrote(p.value)] else []
  }

  /** The data of the transfers in a trace, in order. */
  function Writes(trace: seq<Event>): (ws: seq<seq<byte>>)
    ensures |ws| <= |trace|
  {
    if trace == [] then []
    else Writes(trace[..|trace| - 1]) + (if trace[|trace| - 1].Wrote? then [trace[|trace| - 1].data] else [])
  }

  lemma {:induction false} WritesAppend(a: seq<Event>, b: seq<Event>)
    ensures Writes(a + b) == Writes(a) + Writes(b)
    decreases |b|
  {
    if b == [] {
      assert a + b == a;
    } else {
      var b' := b[..|b| - 1];
      assert (a + b)[..|a + b| - 1] == a + b';
      WritesAppend(a, b');
    }
  }

  /** The frame a transaction sends: the two name bytes, then each non-empty group. */
  function Frame(nameBytes: seq<byte>, p1: Option<seq<byte>>, p2: Option<seq<byte>>): (f: seq<seq<byte>>)
    ensures |f| == 1 + (if Given(p1) then 1 else 0) + (if Given(p2) then 1 else 0)
    ensures f[0] == nameBytes
  {
    [nameBytes] + (if Given(p1) then [p1.value] else []) + (if Given(p2) then [p2.value] else [])
  }

  /** A non-empty parameter group goes out after the inter-session delay; an empty or absent one is skipped. */
  function SendGroup(l: Link, p: Option<seq<byte>>): Link
  {
    if Given(p) then Log(Log(l, Slept(PARAM_DELAY)), Wrote(p.value)) else l
  }

  /** The request half of a transaction on an open session: name, groups, and the response wait. */
  function Request(l: Link, nameBytes: seq<byte>, p1: Option<seq<byte>>, p2: Option<seq<byte>>, responseTime: nat): Link
  {
    Log(SendGroup(SendGroup(Log(l, Wrote(nameBytes)), p1), p2), Slept(responseTime))
  }

  /** The answer half: read and classify the status byte, then the return bytes, then close. */
  function Answer(l: Link, d: Dialect, cmd: Command, p1: Option<seq<byte>>, p2: Option<seq<byte>>): Step<Payload>
  {
    var status := Clocked(l.incoming, 1)[0];
    var heard := ReadOn(l, 1);
    match Classify(d, status)
    case Some(problem) => Step(Log(heard, Closed), Failure(Rejected(problem, status, cmd, (p1, p2))))
    case None =>
      match cmd.returnCount
      case None => Step(Log(heard, Closed), Failure(CountUnset(cmd)))
      case Some(n) =>
        if n < 1 then Step(Log(heard, Closed), Success(Nothing))
        else
          var waited := Log(heard, Slept(PARAM_DELAY));
          var response := Clocked(waited.incoming, n);
          Step(Log(ReadOn(waited, n), Closed), Success(if n == 1 then Single(response[0]) else Many(response)))
  }

  /** The specification of `_transact` on the link `l`. */
  function TransactSpec(l: Link, d: Dialect, cmd: Command, p1: Option<seq<byte>>, p2: Option<seq<byte>>): Step<Payload>
  {
    var start := Log(l, Opened);
    match NameBytes(cmd.name)
    case None => Step(Log(start, Closed), Failure(Unsendable(cmd)))
    case Some(nb) => Answer(Request(start, nb, p1, p2, cmd.responseTime), d, cmd, p1, p2)
  }

  /** `_transact`, step by step on the SPI device. */
  method Transact(port: Port, d: Dialect, cmd: Command, p1: Option<seq<byte>>, p2: Option<seq<byte>>)
    returns (r: Result<Payload, Fault>)
    modifies port
    ensures Step(port.State(), r) == TransactSpec(old(port.State()), d, cmd, p1, p2)
    ensures !port.isOpen
  {
    ghost var start := Log(port.State(), Opened);
    port.Open();
    var nb := NameBytes(cmd.name);
    if nb.None? {
      port.Close();
      return Failure(Unsendable(cmd));
    }
    port.Xfer(nb.value);
    if Given(p1) {
      port.Sleep(PARAM_DELAY);
      port.Xfer(p1.value);
    }
    assert port.State() == SendGroup(Log(start, Wrote(nb.value)), p1);
    if Given(p2) {
      port.Sleep(PARAM_DELAY);
      port.Xfer(p2.value);
    }
    port.Sleep(cmd.responseTime);
    ghost var asked := port.State();
    assert asked == Request(start, nb.value, p1, p2, cmd.responseTime);
    var response := port.ReadBytes(1);
    var problem := Classify(d, response[0]);
    if problem.Some? {
      r := Failure(Rejected(problem.value, response[0], cmd, (p1, p2)));
    } else if cmd.returnCount.None? {
      r := Failure(CountUnset(cmd));
    } else if cmd.returnCount.value < 1 {
      r := Success(Nothing);
    } else {
      var n := cmd.returnCount.value;
      port.Sleep(PARAM_DELAY);
      response := port.ReadBytes(n);
      r := Success(if n == 1 then Single(response[0]) else Many(response));
    }
    port.Close();
    assert Step(port.State(), r) == Answer(asked, d, cmd, p1, p2);
  }

  // ---------------------------------------------------------------------------------------------
  // properties of one transaction

  /** The events of the request half: the name, each non-empty group after its delay, then the response wait. */
  function RequestEvents(nb: seq<byte>, p1: Option<seq<byte>>, p2: Option<seq<byte>>, rt: nat): seq<Event>
  {
    [Wrote(nb)] + Group(p1) + Group(p2) + [Slept(rt)]
  }

  /** The events of the answer half on the queue `incoming`: the status read, the payload read if any, and the close. */
  function AnswerEvents(incoming: seq<byte>, d: Dialect, cmd: Command): seq<Event>
  {
    var status := Clocked(incoming, 1);
    if Classify(d, status[0]).Some? || cmd.returnCount.None? || cmd.returnCount.value < 1 then
      [Read(status), Closed]
    else
      [Read(status), Slept(PARAM_DELAY), Read(Clocked(Drained(incoming, 1), cmd.returnCount.value)), Closed]
  }

  lemma RequestTrace(l: Link, nb: seq<byte>, p1: Option<seq<byte>>, p2: Option<seq<byte>>, rt: nat)
    ensures Request(l, nb, p1, p2, rt).trace == l.trace + RequestEvents(nb, p1, p2, rt)
    ensures Request(l, nb, p1, p2, rt).incoming == l.incoming
  {
  }

  lemma AnswerTrace(l: Link, d: Dialect, cmd: Command, p1: Option<seq<byte>>, p2: Option<seq<byte>>)
    ensures Answer(l, d, cmd, p1, p2).link.trace == l.trace + AnswerEvents(l.incoming, d, cmd)
  {
  }

  /** The whole trace of a transaction whose name can be sent. */
  lemma TransactTrace(l: Link, d: Dialect, cmd: Command, p1: Option<seq<byte>>, p2: Option<seq<byte>>)
    requires NameBytes(cmd.name).Some?
    ensures var nb := NameBytes(cmd.name).value;
      TransactSpec(l, d, cmd, p1, p2).link.trace ==
        l.trace + [Opened] + RequestEvents(nb, p1, p2, cmd.responseTime) + AnswerEvents(l.incoming, d, cmd)
  {
    var nb := NameBytes(cmd.name).value;
    var start := Log(l, Opened);
    RequestTrace(start, nb, p1, p2, cmd.responseTime);
    AnswerTrace(Request(start, nb, p1, p2, cmd.responseTime), d, cmd, p1, p2);
  }

  /**
   * Whatever happens, the transaction adds one session to the trace: it opens
   * first, closes last, and neither opens nor closes in between.
   */
  lemma OneSession(l: Link, d: Dialect, cmd: Command, p1: Option<seq<byte>>, p2: Option<seq<byte>>)
    ensures var t := TransactSpec(l, d, cmd, p1, p2).link.trace;
      |l.trace| + 2 <= |t| && t[..|l.trace|] == l.trace &&
      t[|l.trace|] == Opened && t[|t| - 1] == Closed &&
      Opened !in t[|l.trace| + 1..|t| - 1] && Closed !in t[|l.trace| + 1..|t| - 1]
  {
    var t := TransactSpec(l, d, cmd, p1, p2).link.trace;
    if NameBytes(cmd.name).None? {
      assert t == l.trace + [Opened] + [] + [Closed];
      Bracketed(l.trace, []);
    } else {
      var nb := NameBytes(cmd.name).value;
      TransactTrace(l, d, cmd, p1, p2);
      var request := RequestEvents(nb, p1, p2, cmd.responseTime);
      var answer := AnswerEvents(l.incoming, d, cmd);
      RequestQuiet(nb, p1, p2, cmd.responseTime);
      AnswerEndsClosed(l.incoming, d, cmd);
      var heard := answer[..|answer| - 1];
      var mid := request + heard;
      assert Opened !in mid && Closed !in mid;
      assert t == l.trace + [Opened] + mid + [Closed];
      Bracketed(l.trace, mid);
    }
  }

  lemma RequestQuiet(nb: seq<byte>, p1: Option<seq<byte>>, p2: Option<seq<byte>>, rt: nat)
    ensures Opened !in RequestEvents(nb, p1, p2, rt) && Closed !in RequestEvents(nb, p1, p2, rt)
  {
  }

  lemma AnswerEndsClosed(incoming: seq<byte>, d: Dialect, cmd: Command)
    ensures var answer := AnswerEvents(incoming, d, cmd);
      |answer| >= 1 && answer == answer[..|answer| - 1] + [Closed] &&
      Opened !in answer[..|answer| - 1] && Closed !in answer[..|answer| - 1]
  {
  }

  lemma Bracketed(pre: seq<Event>, mid: seq<Event>)
    ensures var t := pre + [Opened] + mid + [Closed];
      t[..|pre|] == pre && t[|pre|] == Opened && t[|t| - 1] == Closed && t[|pre| + 1..|t| - 1] == mid
  {
  }

  lemma WritesOne(e: Event)
    ensures Writes([e]) == if e.Wrote? then [e.data] else []
  {
    assert [e][..0] == [];
  }

  /** The request half writes exactly the frame. */
  lemma RequestWrites(nb: seq<byte>, p1: Option<seq<byte>>, p2: Option<seq<byte>>, rt: nat)
    ensures Writes(RequestEvents(nb, p1, p2, rt)) == Frame(nb, p1, p2)
  {
    WritesOne(Wrote(nb));
    WritesOne(Slept(rt));
    GroupWrites(p1);
    GroupWrites(p2);
    WritesAppend([Wrote(nb)] + Group(p1) + Group(p2), [Slept(rt)]);
    WritesAppend([Wrote(nb)] + Group(p1), Group(p2));
    WritesAppend([Wrote(nb)], Group(p1));
  }

  lemma GroupWrites(p: Option<seq<byte>>)
    ensures Writes(Group(p)) == if Given(p) then [p.value] else []
  {
    if Given(p) {
      WritesOne(Slept(PARAM_DELAY));
      WritesOne(Wrote(p.value));
      WritesAppend([Slept(PARAM_DELAY)], [Wrote(p.value)]);
    }
  }

  /** The answer half writes nothing. */
  lemma AnswerWrites(incoming: seq<byte>, d: Dialect, cmd: Command)
    ensures Writes(AnswerEvents(incoming, d, cmd)) == []
  {
    var e := AnswerEvents(incoming, d, cmd);
    assert forall i :: 0 <= i < |e| ==> !e[i].Wrote?;
    NoWrites(e);
  }

  lemma {:induction false} NoWrites(t: seq<Event>)
    requires forall i :: 0 <= i < |t| ==> !t[i].Wrote?
    ensures Writes(t) == []
    decreases |t|
  {
    if t != [] {
      NoWrites(t[..|t| - 1]);
    }
  }

  /** With a sendable name, the transfers are exactly the frame: name, then each non-empty group. */
  lemma SendsFrame(l: Link, d: Dialect, cmd: Command, p1: Option<seq<byte>>, p2: Option<seq<byte>>)
    requires NameBytes(cmd.name).Some?
    ensures Writes(TransactSpec(l, d, cmd, p1, p2).link.trace) == Writes(l.trace) + Frame(NameBytes(cmd.name).value, p1, p2)
  {
    var nb := NameBytes(cmd.name).value;
    var request := RequestEvents(nb, p1, p2, cmd.responseTime);
    var answer := AnswerEvents(l.incoming, d, cmd);
    var pre := l.trace + [Opened];
    var asked := pre + request;
    TransactTrace(l, d, cmd, p1, p2);
    assert TransactSpec(l, d, cmd, p1, p2).link.trace == asked + answer;
    WritesAppend(asked, answer);
    AnswerWrites(l.incoming, d, cmd);
    assert Writes(asked + answer) == Writes(asked);
    WritesAppend(pre, request);
    RequestWrites(nb, p1, p2, cmd.responseTime);
    assert Writes(asked) == Writes(pre) + Frame(nb, p1, p2);
    WritesAppend(l.trace, [Opened]);
    WritesOne(Opened);
    assert Writes(pre) == Writes(l.trace);
  }

  /**
   * An error status raises the dialect's exception carrying the status, the
   * command and both parameter groups; the status byte is the only read.
   */
  lemma ErrorStatusReadsNoPayload(l: Link, d: Dialect, cmd: Command, p1: Option<seq<byte>>, p2: Option<seq<byte>>)
    requires NameBytes(cmd.name).Some?
    requires Classify(d, Clocked(l.incoming, 1)[0]).Some?
    ensures var s := TransactSpec(l, d, cmd, p1, p2);
      var nb := NameBytes(cmd.name).value;
      var status := Clocked(l.incoming, 1)[0];
      s.result == Failure(Rejected(Classify(d, status).value, status, cmd, (p1, p2))) &&
      s.link.trace == l.trace + [Opened] + RequestEvents(nb, p1, p2, cmd.responseTime) + [Read([status]), Closed] &&
      s.link.incoming == Drained(l.incoming, 1)
  {
    TransactTrace(l, d, cmd, p1, p2);
    assert Clocked(l.incoming, 1) == [Clocked(l.incoming, 1)[0]];
  }

  /** A return count below 1 returns None after the status byte, with no second read. */
  lemma NoCountNoPayload(l: Link, d: Dialect, cmd: Command, p1: Option<seq<byte>>, p2: Option<seq<byte>>)
    requires NameBytes(cmd.name).Some?
    requires Classify(d, Clocked(l.incoming, 1)[0]).None?
    requires cmd.returnCount.Some? && cmd.returnCount.value < 1
    ensures var s := TransactSpec(l, d, cmd, p1, p2);
      var nb := NameBytes(cmd.name).value;
      s.result == Success(Nothing) &&
      s.link.trace == l.trace + [Opened] + RequestEvents(nb, p1, p2, cmd.responseTime) + [Read(Clocked(l.incoming, 1)), Closed] &&
      s.link.incoming == Drained(l.incoming, 1)
  {
    TransactTrace(l, d, cmd, p1, p2);
  }

  /**
   * A return count n of at least 1 reads exactly n bytes after the status
   * byte; the result is the lone byte when n is 1 and the n bytes otherwise.
   */
  lemma ReadsExactlyCount(l: Link, d: Dialect, cmd: Command, p1: Option<seq<byte>>, p2: Option<seq<byte>>)
    requires NameBytes(cmd.name).Some?
    requires Classify(d, Clocked(l.incoming, 1)[0]).None?
    requires cmd.returnCount.Some? && cmd.returnCount.value >= 1
    ensures var s := TransactSpec(l, d, cmd, p1, p2);
      var nb := NameBytes(cmd.name).value;
      var n := cmd.returnCount.value;
      var payload := Clocked(l.incoming, 1 + n)[1..];
      |payload| == n &&
      s.link.trace == l.trace + [Opened] + RequestEvents(nb, p1, p2, cmd.responseTime) +
        [Read(Clocked(l.incoming, 1)), Slept(PARAM_DELAY), Read(payload), Closed] &&
      s.link.incoming == Drained(l.incoming, 1 + n) &&
      s.result == Success(if n == 1 then Single(payload[0]) else Many(payload))
  {
    var n := cmd.returnCount.value;
    TransactTrace(l, d, cmd, p1, p2);
    ReadsCompose(l.incoming, 1, n);
    assert Clocked(Drained(l.incoming, 1), n) == Clocked(l.incoming, 1 + n)[1..];
  }

  /** x1 and v1 reject 0x00 and 0xff as no answer, 0x02 as NACK and 0x03 as BUSY, and accept every other status. */
  lemma X1V1Statuses(f: Family, status: byte)
    requires f == X1 || f == V1
    ensures Classify(DialectOf(f), status) ==
      if status == 0x00 || status == 0xff then Some(NoneReceived)
      else if status == 0x02 then Some(NackReceived)
      else if status == 0x03 then Some(BusyReceived)
      else None
  {
  }

  /** t1f1 rejects only 0x00 and 0xff (no answer) and 0x02 (NACK); BUSY (0x03) passes as success. */
  lemma T1F1Statuses(status: byte)
    ensures Classify(DialectOf(T1F1), status).Some? <==> status in {0x00, 0xff, 0x02}
    ensures Classify(DialectOf(T1F1), RESPONSE_BUSY) == None
  {
  }

  /** The older ndir driver rejects only 0x00 as no answer; 0xff passes as success. */
  lemma NdirStatuses(status: byte)
    ensures Classify(DialectOf(Ndir), status) ==
      if status == 0x00 then Some(NoneReceived)
      else if status == 0x02 then Some(NackReceived)
      else if status == 0x03 then Some(BusyReceived)
      else None
    ensures Classify(DialectOf(Ndir), 0xff) == None
  {
  }
}
