/**
 * The calibration record on the device (`store_calib`, `retrieve_calib` and
 * their helpers in the x1, v1 and t1f1 drivers). Storing sends one `cw` per
 * field, in a fixed order; a range that is absent is stored as its `is_set`
 * flag alone. Retrieving sends one `cr` per field and reads a range's
 * coefficients only when its flag reads back non-zero.
 *
 * The record is described twice: as the SPI traffic it causes (Issue,
 * RetrieveSpec, and the methods proved against them), and as what
 * it leaves in the device's EEPROM (Burn, Recall). A device holding an
 * EEPROM answers each `cr` with its cells' bytes (Reply), and against such
 * a device the traffic of `retrieve_calib` returns what the EEPROM holds;
 * so storing then retrieving gives the record back.
 */
module CalibStore {
  import opened Wrappers
  import opened Bytes
  import opened Commands
  import opened Bus
  import opened Transact
  import opened Fields
  import opened Engine
  import opened CalibRecord
  import opened Operations

  /** One `_calib_w_*` call: a value for a slot. */
  datatype Write = Write(slot: Slot, value: Value)

  /** The parameter group `(block, index)`. */
  function Address(s: Slot): (bs: seq<byte>)
    ensures |bs| == 2 && bs[0] == s.block && bs[1] == s.index
  {
    [s.block, s.index]
  }

  /** Where a write lands in the EEPROM. */
  function Cell(x: Write): (byte, byte)
  {
    (x.slot.block, x.slot.index)
  }

  // ---------------------------------------------------------------------------------------------
  // the writes store_calib issues, in order

  function CommonPlan(c: Calib): (plan: seq<Write>)
    ensures |plan| == |COMMON_SLOTS|
    ensures forall i :: 0 <= i < |plan| ==> plan[i] == Write(COMMON_SLOTS[i], CommonFields(c)[i])
  {
    [Write(COMMON_SLOTS[0], c.ndirSerial), Write(COMMON_SLOTS[1], c.boardSerial),
     Write(COMMON_SLOTS[2], c.selectedRange), Write(COMMON_SLOTS[3], c.lampVoltage),
     Write(COMMON_SLOTS[4], c.lampPeriod), Write(COMMON_SLOTS[5], c.sampleStart),
     Write(COMMON_SLOTS[6], c.sampleEnd)]
  }

  /** The nine coefficients of a range, in layout order. */
  function CoefficientPlan(block: byte, rc: RangeCalib): (plan: seq<Write>)
    ensures |plan| == 9
    ensures forall i :: 0 <= i < 9 ==> plan[i] == Write(RangeSlots(block)[i], Coefficients(rc)[i])
  {
    [Write(Slot(block, INDEX_ZERO, F32), rc.zero), Write(Slot(block, INDEX_SPAN, F32), rc.span),
     Write(Slot(block, INDEX_LINEAR_B, F32), rc.linearB), Write(Slot(block, INDEX_LINEAR_C, F32), rc.linearC),
     Write(Slot(block, INDEX_ALPHA_LOW, F32), rc.alphaLow), Write(Slot(block, INDEX_ALPHA_HIGH, F32), rc.alphaHigh),
     Write(Slot(block, INDEX_BETA_A, F32), rc.betaA), Write(Slot(block, INDEX_BETA_O, F32), rc.betaO),
     Write(Slot(block, INDEX_T_CAL, F32), rc.tCal)]
  }

  /** `_store_range_calib`: the flag, then, for a present range only, the nine coefficients. */
  function RangePlan(block: byte, r: Option<RangeCalib>): (plan: seq<Write>)
    ensures plan != [] && plan[0] == Write(IsSetSlot(block), Int(if r.Some? then 1 else 0))
    ensures r.None? ==> |plan| == 1
    ensures r.Some? ==> |plan| == 10 && plan[1..] == CoefficientPlan(block, r.value)
    ensures r.Some? ==> forall i :: 1 <= i < |plan| ==> plan[i] == Write(RangeSlots(block)[i - 1], Coefficients(r.value)[i - 1])
  {
    match r
    case None => [Write(IsSetSlot(block), Int(0))]
    case Some(rc) => [Write(IsSetSlot(block), Int(1))] + CoefficientPlan(block, rc)
  }

  /** `store_calib`: the common block, then the five ranges in block order. */
  function StorePlan(c: Calib): seq<Write>
  {
    CommonPlan(c) + RangePlan(RANGE_IAQ, c.rangeIaq) + RangePlan(RANGE_SAFETY, c.rangeSafety) +
    RangePlan(RANGE_COMBUSTION, c.rangeCombustion) + RangePlan(RANGE_INDUSTRIAL, c.rangeIndustrial) +
    RangePlan(RANGE_CUSTOM, c.rangeCustom)
  }

  /** Every field of the record has the type its slot encodes: integers in range, floats where floats go. */
  predicate Storable(c: Calib)
  {
    Fits(U32, c.ndirSerial) && Fits(U32, c.boardSerial) && Fits(U16, c.selectedRange) &&
    Fits(F32, c.lampVoltage) && Fits(U16, c.lampPeriod) && Fits(U16, c.sampleStart) && Fits(U16, c.sampleEnd) &&
    FloatRanges(Ranges(c))
  }

  /** Every present range has floats for its nine coefficients. */
  predicate FloatRanges(rs: seq<Option<RangeCalib>>)
  {
    forall r :: r in rs && r.Some? ==> forall i :: 0 <= i < 9 ==> Coefficients(r.value)[i].Real?
  }

  predicate AllFit(plan: seq<Write>)
  {
    forall i :: 0 <= i < |plan| ==> Fits(plan[i].slot.kind, plan[i].value)
  }

  /** No two writes of the plan land in the same cell. */
  predicate Spread(plan: seq<Write>)
  {
    forall i, j :: 0 <= i < j < |plan| ==> Cell(plan[i]) != Cell(plan[j])
  }

  predicate InBlocks(plan: seq<Write>, blocks: set<byte>)
  {
    forall i :: 0 <= i < |plan| ==> plan[i].slot.block in blocks
  }

  // ---------------------------------------------------------------------------------------------
  // the store as SPI traffic

  /** One `_calib_w_*`: `cw` with `(block, index)` and the value's bytes, then the execution time. */
  function WriteSpec(w: World, d: Dialect, x: Write): Outcome<()>
  {
    var o := StoreSpec(w, d, "cw", Address(x.slot), x.slot.kind, x.value);
    Outcome(o.world, if o.result.Success? then Success(()) else Failure(o.result.error))
  }

  /** A sequence of writes, stopping at the first that raises. */
  function Issue(w: World, d: Dialect, plan: seq<Write>): Outcome<()>
    decreases |plan|
  {
    if plan == [] then Outcome(w, Success(()))
    else
      var o := WriteSpec(w, d, plan[0]);
      if o.result.Failure? then o else Issue(o.world, d, plan[1..])
  }

  /** Continue with `plan` after an outcome, unless it raised. */
  function Then(o: Outcome<()>, d: Dialect, plan: seq<Write>): Outcome<()>
  {
    if o.result.Failure? then o else Issue(o.world, d, plan)
  }

  /** One more write after an outcome, unless it raised. */
  function AndWrite(o: Outcome<()>, d: Dialect, x: Write): Outcome<()>
  {
    if o.result.Failure? then o else WriteSpec(o.world, d, x)
  }

  /** The common block's seven writes, in the order `store_calib` issues them. */
  function CommonWrites(w: World, d: Dialect, c: Calib): Outcome<()>
  {
    var p := CommonPlan(c);
    var o0 := AndWrite(Outcome(w, Success(())), d, p[0]);
    var o1 := AndWrite(o0, d, p[1]);
    var o2 := AndWrite(o1, d, p[2]);
    var o3 := AndWrite(o2, d, p[3]);
    var o4 := AndWrite(o3, d, p[4]);
    var o5 := AndWrite(o4, d, p[5]);
    AndWrite(o5, d, p[6])
  }

  /** The nine coefficient writes of a present range, after its flag. */
  function CoefficientWrites(w: World, d: Dialect, block: byte, rc: RangeCalib): Outcome<()>
  {
    var p := CoefficientPlan(block, rc);
    var o0 := AndWrite(Outcome(w, Success(())), d, p[0]);
    var o1 := AndWrite(o0, d, p[1]);
    var o2 := AndWrite(o1, d, p[2]);
    var o3 := AndWrite(o2, d, p[3]);
    var o4 := AndWrite(o3, d, p[4]);
    var o5 := AndWrite(o4, d, p[5]);
    var o6 := AndWrite(o5, d, p[6]);
    var o7 := AndWrite(o6, d, p[7]);
    AndWrite(o7, d, p[8])
  }

  /** `_store_range_calib`: the flag, then the coefficients of a present range. */
  function RangeWrites(w: World, d: Dialect, block: byte, r: Option<RangeCalib>): Outcome<()>
  {
    var flag := WriteSpec(w, d, RangePlan(block, r)[0]);
    if r.None? || flag.result.Failure? then flag else CoefficientWrites(flag.world, d, block, r.value)
  }

  /** One more range after an outcome, unless it raised. */
  function AndRangeWrites(o: Outcome<()>, d: Dialect, block: byte, r: Option<RangeCalib>): Outcome<()>
  {
    if o.result.Failure? then o else RangeWrites(o.world, d, block, r)
  }

  /** The body of `store_calib`, helper by helper. */
  function StoreWrites(w: World, d: Dialect, c: Calib): Outcome<()>
  {
    var o0 := CommonWrites(w, d, c);
    var o1 := AndRangeWrites(o0, d, RANGE_IAQ, c.rangeIaq);
    var o2 := AndRangeWrites(o1, d, RANGE_SAFETY, c.rangeSafety);
    var o3 := AndRangeWrites(o2, d, RANGE_COMBUSTION, c.rangeCombustion);
    var o4 := AndRangeWrites(o3, d, RANGE_INDUSTRIAL, c.rangeIndustrial);
    AndRangeWrites(o4, d, RANGE_CUSTOM, c.rangeCustom)
  }

  lemma {:induction false} IssueAppend(w: World, d: Dialect, a: seq<Write>, b: seq<Write>)
    ensures Issue(w, d, a + b) == Then(Issue(w, d, a), d, b)
    decreases |a|
  {
    if a != [] {
      assert (a + b)[0] == a[0];
      assert (a + b)[1..] == a[1..] + b;
      var o := WriteSpec(w, d, a[0]);
      if o.result.Success? {
        IssueAppend(o.world, d, a[1..], b);
      }
    } else {
      assert a + b == b;
    }
  }

  /** The store as one issue of its plan, composed part by part as `store_calib` calls its helpers. */
  lemma StoreComposes(w: World, d: Dialect, c: Calib)
    ensures Issue(w, d, StorePlan(c)) ==
      Then(Then(Then(Then(Then(Issue(w, d, CommonPlan(c)),
        d, RangePlan(RANGE_IAQ, c.rangeIaq)), d, RangePlan(RANGE_SAFETY, c.rangeSafety)),
        d, RangePlan(RANGE_COMBUSTION, c.rangeCombustion)), d, RangePlan(RANGE_INDUSTRIAL, c.rangeIndustrial)),
        d, RangePlan(RANGE_CUSTOM, c.rangeCustom))
  {
    var p0 := CommonPlan(c);
    var p1 := p0 + RangePlan(RANGE_IAQ, c.rangeIaq);
    var p2 := p1 + RangePlan(RANGE_SAFETY, c.rangeSafety);
    var p3 := p2 + RangePlan(RANGE_COMBUSTION, c.rangeCombustion);
    var p4 := p3 + RangePlan(RANGE_INDUSTRIAL, c.rangeIndustrial);
    IssueAppend(w, d, p4, RangePlan(RANGE_CUSTOM, c.rangeCustom));
    IssueAppend(w, d, p3, RangePlan(RANGE_INDUSTRIAL, c.rangeIndustrial));
    IssueAppend(w, d, p2, RangePlan(RANGE_COMBUSTION, c.rangeCombustion));
    IssueAppend(w, d, p1, RangePlan(RANGE_SAFETY, c.rangeSafety));
    IssueAppend(w, d, p0, RangePlan(RANGE_IAQ, c.rangeIaq));
  }

  /** Issuing the first k + 1 writes is issuing the first k, then write k. */
  lemma IssueOneMore(w: World, d: Dialect, plan: seq<Write>, k: nat)
    requires k < |plan|
    ensures Issue(w, d, plan[..k + 1]) == AndWrite(Issue(w, d, plan[..k]), d, plan[k])
  {
    assert plan[..k + 1] == plan[..k] + [plan[k]];
    IssueAppend(w, d, plan[..k], [plan[k]]);
    IssueOne(Issue(w, d, plan[..k]).world, d, plan[k]);
  }

  lemma IssueOne(w: World, d: Dialect, x: Write)
    ensures Issue(w, d, [x]) == WriteSpec(w, d, x)
  {
    assert [x][1..] == [];
    var o := WriteSpec(w, d, x);
    if o.result.Success? {
      assert o.result.value == ();
    }
  }

  /** The common block's writes are the issue of its plan. */
  lemma CommonWritesIssue(w: World, d: Dialect, c: Calib)
    ensures CommonWrites(w, d, c) == Issue(w, d, CommonPlan(c))
  {
    var p := CommonPlan(c);
    assert p[..0] == [];
    IssueOneMore(w, d, p, 0);
    IssueOneMore(w, d, p, 1);
    IssueOneMore(w, d, p, 2);
    IssueOneMore(w, d, p, 3);
    IssueOneMore(w, d, p, 4);
    IssueOneMore(w, d, p, 5);
    IssueOneMore(w, d, p, 6);
    assert p[..7] == p;
  }

  /** A present range's coefficient writes are the issue of its plan after the flag. */
  lemma CoefficientWritesIssue(w: World, d: Dialect, block: byte, rc: RangeCalib)
    ensures CoefficientWrites(w, d, block, rc) == Issue(w, d, CoefficientPlan(block, rc))
  {
    var p := CoefficientPlan(block, rc);
    assert p[..0] == [];
    IssueOneMore(w, d, p, 0);
    IssueOneMore(w, d, p, 1);
    IssueOneMore(w, d, p, 2);
    IssueOneMore(w, d, p, 3);
    IssueOneMore(w, d, p, 4);
    IssueOneMore(w, d, p, 5);
    IssueOneMore(w, d, p, 6);
    IssueOneMore(w, d, p, 7);
    IssueOneMore(w, d, p, 8);
    assert p[..9] == p;
  }

  /** A range's writes, after an outcome, are the issue of its plan after that outcome. */
  lemma AndRangeWritesIssue(o: Outcome<()>, d: Dialect, block: byte, r: Option<RangeCalib>)
    ensures AndRangeWrites(o, d, block, r) == Then(o, d, RangePlan(block, r))
  {
    if o.result.Success? {
      var p := RangePlan(block, r);
      var flag := WriteSpec(o.world, d, p[0]);
      if r.Some? && flag.result.Success? {
        CoefficientWritesIssue(flag.world, d, block, r.value);
      } else if r.None? {
        IssueOne(o.world, d, p[0]);
      }
    }
  }

  /** The helpers `store_calib` calls, one after the other, issue the whole plan. */
  lemma StoreWritesIssue(w: World, d: Dialect, c: Calib)
    ensures StoreWrites(w, d, c) == Issue(w, d, StorePlan(c))
  {
    StoreComposes(w, d, c);
    var o0 := CommonWrites(w, d, c);
    CommonWritesIssue(w, d, c);
    var o1 := AndRangeWrites(o0, d, RANGE_IAQ, c.rangeIaq);
    AndRangeWritesIssue(o0, d, RANGE_IAQ, c.rangeIaq);
    var o2 := AndRangeWrites(o1, d, RANGE_SAFETY, c.rangeSafety);
    AndRangeWritesIssue(o1, d, RANGE_SAFETY, c.rangeSafety);
    var o3 := AndRangeWrites(o2, d, RANGE_COMBUSTION, c.rangeCombustion);
    AndRangeWritesIssue(o2, d, RANGE_COMBUSTION, c.rangeCombustion);
    var o4 := AndRangeWrites(o3, d, RANGE_INDUSTRIAL, c.rangeIndustrial);
    AndRangeWritesIssue(o3, d, RANGE_INDUSTRIAL, c.rangeIndustrial);
    AndRangeWritesIssue(o4, d, RANGE_CUSTOM, c.rangeCustom);
  }

  /** A value its slot cannot encode stops the store there: it never succeeds. */
  lemma {:induction false} IssueStopsAtUnfit(w: World, d: Dialect, plan: seq<Write>, k: nat)
    requires k < |plan| && !Fits(plan[k].slot.kind, plan[k].value)
    ensures Issue(w, d, plan).result.Failure?
    decreases k
  {
    var o := WriteSpec(w, d, plan[0]);
    if o.result.Success? {
      assert k > 0;
      assert plan[1..][k - 1] == plan[k];
      IssueStopsAtUnfit(o.world, d, plan[1..], k - 1);
    }
  }

  lemma StorableIff(c: Calib)
    ensures Storable(c) <==> AllFit(StorePlan(c))
  {
    var plan := StorePlan(c);
    var parts := [CommonPlan(c), RangePlan(RANGE_IAQ, c.rangeIaq), RangePlan(RANGE_SAFETY, c.rangeSafety),
      RangePlan(RANGE_COMBUSTION, c.rangeCombustion), RangePlan(RANGE_INDUSTRIAL, c.rangeIndustrial),
      RangePlan(RANGE_CUSTOM, c.rangeCustom)];
    assert plan == parts[0] + parts[1] + parts[2] + parts[3] + parts[4] + parts[5];
    AllFitAppend(parts[0], parts[1]);
    AllFitAppend(parts[0] + parts[1], parts[2]);
    AllFitAppend(parts[0] + parts[1] + parts[2], parts[3]);
    AllFitAppend(parts[0] + parts[1] + parts[2] + parts[3], parts[4]);
    AllFitAppend(parts[0] + parts[1] + parts[2] + parts[3] + parts[4], parts[5]);
    assert AllFit(CommonPlan(c)) <==>
      Fits(U32, c.ndirSerial) && Fits(U32, c.boardSerial) && Fits(U16, c.selectedRange) &&
      Fits(F32, c.lampVoltage) && Fits(U16, c.lampPeriod) && Fits(U16, c.sampleStart) && Fits(U16, c.sampleEnd)
    by {
      var p := CommonPlan(c);
      assert p[0].value == c.ndirSerial && p[1].value == c.boardSerial && p[2].value == c.selectedRange;
      assert p[3].value == c.lampVoltage && p[4].value == c.lampPeriod && p[5].value == c.sampleStart;
      assert p[6].value == c.sampleEnd;
    }
    RangeFits(RANGE_IAQ, c.rangeIaq);
    RangeFits(RANGE_SAFETY, c.rangeSafety);
    RangeFits(RANGE_COMBUSTION, c.rangeCombustion);
    RangeFits(RANGE_INDUSTRIAL, c.rangeIndustrial);
    RangeFits(RANGE_CUSTOM, c.rangeCustom);
    assert Ranges(c) == [c.rangeIaq, c.rangeSafety, c.rangeCombustion, c.rangeIndustrial, c.rangeCustom];
  }

  lemma AllFitAppend(a: seq<Write>, b: seq<Write>)
    ensures AllFit(a + b) <==> AllFit(a) && AllFit(b)
  {
    if AllFit(a) && AllFit(b) {
      forall i | 0 <= i < |a + b|
        ensures Fits((a + b)[i].slot.kind, (a + b)[i].value)
      {
        if i >= |a| {
          assert (a + b)[i] == b[i - |a|];
        }
      }
    }
    if AllFit(a + b) {
      forall i | 0 <= i < |a|
        ensures Fits(a[i].slot.kind, a[i].value)
      {
        assert (a + b)[i] == a[i];
      }
      forall i | 0 <= i < |b|
        ensures Fits(b[i].slot.kind, b[i].value)
      {
        assert (a + b)[|a| + i] == b[i];
      }
    }
  }

  lemma RangeFits(block: byte, r: Option<RangeCalib>)
    ensures AllFit(RangePlan(block, r)) <==> r.None? || forall i :: 0 <= i < 9 ==> Coefficients(r.value)[i].Real?
  {
    var p := RangePlan(block, r);
    if r.Some? {
      if AllFit(p) {
        forall i | 0 <= i < 9
          ensures Coefficients(r.value)[i].Real?
        {
          assert p[i + 1].slot.kind == F32 && p[i + 1].value == Coefficients(r.value)[i];
        }
      }
      if forall i :: 0 <= i < 9 ==> Coefficients(r.value)[i].Real? {
        forall i | 0 <= i < |p|
          ensures Fits(p[i].slot.kind, p[i].value)
        {
        }
      }
    }
  }

  /** A record with a field its slot cannot encode is never stored whole: `store_calib` raises part way. */
  lemma UnstorableNeverStored(w: World, d: Dialect, c: Calib)
    requires !Storable(c)
    ensures Issue(w, d, StorePlan(c)).result.Failure?
  {
    StorableIff(c);
    var plan := StorePlan(c);
    var k :| 0 <= k < |plan| && !Fits(plan[k].slot.kind, plan[k].value);
    IssueStopsAtUnfit(w, d, plan, k);
  }

  /** The frames a write sends: the name, the address, the value's bytes. */
  function Sent(nameBytes: seq<byte>, plan: seq<Write>): seq<seq<byte>>
    requires AllFit(plan)
    decreases |plan|
  {
    if plan == [] then []
    else [nameBytes, Address(plan[0].slot), Encode(plan[0].slot.kind, plan[0].value).value] + Sent(nameBytes, plan[1..])
  }

  lemma WriteSends(w: World, d: Dialect, x: Write)
    requires Lookup(w.commands, "cw").Success? && NameBytes(Lookup(w.commands, "cw").value.name).Some?
    requires WriteSpec(w, d, x).result.Success?
    ensures Fits(x.slot.kind, x.value)
    ensures var o := WriteSpec(w, d, x);
      o.world.commands == w.commands &&
      Writes(o.world.link.trace) == Writes(w.link.trace) +
        [NameBytes(Lookup(w.commands, "cw").value.name).value, Address(x.slot), Encode(x.slot.kind, x.value).value]
  {
    var cmd := Lookup(w.commands, "cw").value;
    var bs := Encode(x.slot.kind, x.value).value;
    var s := TransactSpec(w.link, d, cmd, Some(Address(x.slot)), Some(bs));
    SendsFrame(w.link, d, cmd, Some(Address(x.slot)), Some(bs));
    var t := s.link.trace;
    assert (t + [Slept(cmd.executionTime.value)])[..|t|] == t;
  }

  /** A store that succeeds sent exactly its plan's frames, in order, and left the command table as it was. */
  lemma {:induction false} IssueSends(w: World, d: Dialect, plan: seq<Write>)
    requires Lookup(w.commands, "cw").Success? && NameBytes(Lookup(w.commands, "cw").value.name).Some?
    requires Issue(w, d, plan).result.Success?
    ensures AllFit(plan)
    ensures var o := Issue(w, d, plan);
      o.world.commands == w.commands &&
      Writes(o.world.link.trace) == Writes(w.link.trace) + Sent(NameBytes(Lookup(w.commands, "cw").value.name).value, plan)
    decreases |plan|
  {
    if plan != [] {
      var o := WriteSpec(w, d, plan[0]);
      WriteSends(w, d, plan[0]);
      assert o.world.commands == w.commands;
      assert Issue(w, d, plan) == Issue(o.world, d, plan[1..]);
      IssueSends(o.world, d, plan[1..]);
      AllFitCons(plan);
      var name := NameBytes(Lookup(w.commands, "cw").value.name).value;
      var first := [name, Address(plan[0].slot), Encode(plan[0].slot.kind, plan[0].value).value];
      assert Sent(name, plan) == first + Sent(name, plan[1..]);
      var t := Issue(w, d, plan).world.link.trace;
      assert Writes(t) == Writes(o.world.link.trace) + Sent(name, plan[1..]);
      assert Writes(t) == Writes(w.link.trace) + first + Sent(name, plan[1..]);
    }
  }

  /** A plan fits when its first write and the rest do. */
  lemma AllFitCons(plan: seq<Write>)
    requires plan != [] && Fits(plan[0].slot.kind, plan[0].value) && AllFit(plan[1..])
    ensures AllFit(plan)
  {
    forall i | 0 <= i < |plan|
      ensures Fits(plan[i].slot.kind, plan[i].value)
    {
      if i > 0 {
        assert plan[1..][i - 1] == plan[i];
      }
    }
  }

  // ---------------------------------------------------------------------------------------------
  // the retrieve as SPI traffic

  /** One `_calib_r_*`: `cr`, its return count set to the field's width, with `(block, index)`. */
  function ReadSpec(w: World, d: Dialect, s: Slot): Outcome<Value>
  {
    FetchSpec(w, d, "cr", Address(s), s.kind)
  }

  /** The values read so far and one more read, unless an earlier one raised. */
  function AndRead(o: Outcome<seq<Value>>, d: Dialect, s: Slot): (r: Outcome<seq<Value>>)
    ensures r.result.Success? ==> o.result.Success? && |r.result.value| == |o.result.value| + 1
  {
    if o.result.Failure? then o
    else
      var v := ReadSpec(o.world, d, s);
      if v.result.Failure? then Outcome(v.world, Failure(v.result.error))
      else Outcome(v.world, Success(o.result.value + [v.result.value]))
  }

  /** The seven reads of the common block, in the order `retrieve_calib` issues them. */
  function CommonReads(w: World, d: Dialect): (o: Outcome<seq<Value>>)
    ensures o.result.Success? ==> |o.result.value| == |COMMON_SLOTS|
  {
    var o0 := AndRead(Outcome(w, Success([])), d, COMMON_SLOTS[0]);
    var o1 := AndRead(o0, d, COMMON_SLOTS[1]);
    var o2 := AndRead(o1, d, COMMON_SLOTS[2]);
    var o3 := AndRead(o2, d, COMMON_SLOTS[3]);
    var o4 := AndRead(o3, d, COMMON_SLOTS[4]);
    var o5 := AndRead(o4, d, COMMON_SLOTS[5]);
    AndRead(o5, d, COMMON_SLOTS[6])
  }

  /** The nine coefficient reads of a range block, in layout order. */
  function CoefficientReads(w: World, d: Dialect, block: byte): (o: Outcome<seq<Value>>)
    ensures o.result.Success? ==> |o.result.value| == 9
  {
    var slots := RangeSlots(block);
    var o0 := AndRead(Outcome(w, Success([])), d, slots[0]);
    var o1 := AndRead(o0, d, slots[1]);
    var o2 := AndRead(o1, d, slots[2]);
    var o3 := AndRead(o2, d, slots[3]);
    var o4 := AndRead(o3, d, slots[4]);
    var o5 := AndRead(o4, d, slots[5]);
    var o6 := AndRead(o5, d, slots[6]);
    var o7 := AndRead(o6, d, slots[7]);
    AndRead(o7, d, slots[8])
  }

  /** `_retrieve_range_calib`: the flag, then, unless it reads 0, the nine coefficients. */
  function RangeSpec(w: World, d: Dialect, block: byte): Outcome<Option<RangeCalib>>
  {
    var flag := ReadSpec(w, d, IsSetSlot(block));
    if flag.result.Failure? then Outcome(flag.world, Failure(flag.result.error))
    else if flag.result.value == Int(0) then Outcome(flag.world, Success(None))
    else
      var rs := CoefficientReads(flag.world, d, block);
      if rs.result.Failure? then Outcome(rs.world, Failure(rs.result.error))
      else Outcome(rs.world, Success(Some(RangeOf(rs.result.value))))
  }

  /** The ranges retrieved so far and one more, unless an earlier one raised. */
  function AndRange(o: Outcome<seq<Option<RangeCalib>>>, d: Dialect, block: byte): (r: Outcome<seq<Option<RangeCalib>>>)
    ensures r.result.Success? ==> o.result.Success? && |r.result.value| == |o.result.value| + 1
  {
    if o.result.Failure? then o
    else
      var rc := RangeSpec(o.world, d, block);
      if rc.result.Failure? then Outcome(rc.world, Failure(rc.result.error))
      else Outcome(rc.world, Success(o.result.value + [rc.result.value]))
  }

  /** The five ranges, in block order. */
  function RangesRead(w: World, d: Dialect): (o: Outcome<seq<Option<RangeCalib>>>)
    ensures o.result.Success? ==> |o.result.value| == |RANGE_BLOCKS|
  {
    var o0 := AndRange(Outcome(w, Success([])), d, RANGE_BLOCKS[0]);
    var o1 := AndRange(o0, d, RANGE_BLOCKS[1]);
    var o2 := AndRange(o1, d, RANGE_BLOCKS[2]);
    var o3 := AndRange(o2, d, RANGE_BLOCKS[3]);
    AndRange(o3, d, RANGE_BLOCKS[4])
  }

  /** `retrieve_calib`, inside the lock: the common block, then the five ranges. */
  function RetrieveSpec(w: World, d: Dialect): Outcome<Calib>
  {
    var common := CommonReads(w, d);
    if common.result.Failure? then Outcome(common.world, Failure(common.result.error))
    else
      var ranges := RangesRead(common.world, d);
      if ranges.result.Failure? then Outcome(ranges.world, Failure(ranges.result.error))
      else Outcome(ranges.world, Success(CalibOf(common.result.value, ranges.result.value)))
  }

  /** A range whose flag reads 0 is absent, and nothing more of its block is read. */
  lemma UnsetRangeReadsFlagOnly(w: World, d: Dialect, block: byte)
    requires ReadSpec(w, d, IsSetSlot(block)).result == Success(Int(0))
    ensures RangeSpec(w, d, block) == Outcome(ReadSpec(w, d, IsSetSlot(block)).world, Success(None))
  {
  }

  /** A range whose flag reads anything but 0 is present, made of the nine reads that follow. */
  lemma SetRangeReadsCoefficients(w: World, d: Dialect, block: byte)
    requires ReadSpec(w, d, IsSetSlot(block)).result.Success?
    requires ReadSpec(w, d, IsSetSlot(block)).result.value != Int(0)
    ensures var rs := CoefficientReads(ReadSpec(w, d, IsSetSlot(block)).world, d, block);
      RangeSpec(w, d, block).world == rs.world &&
      (RangeSpec(w, d, block).result.Success? <==> rs.result.Success?) &&
      (rs.result.Success? ==> RangeSpec(w, d, block).result.value == Some(RangeOf(rs.result.value)))
  {
  }

  /** The values read so far fit the slots they came from, in order. */
  predicate FitSlots(vs: seq<Value>, slots: seq<Slot>)
  {
    |vs| == |slots| && forall i :: 0 <= i < |vs| ==> Fits(slots[i].kind, vs[i])
  }

  /** A read that succeeds adds a value that fits its slot. */
  lemma AndReadFits(o: Outcome<seq<Value>>, d: Dialect, s: Slot, slots: seq<Slot>)
    requires o.result.Success? ==> FitSlots(o.result.value, slots)
    ensures AndRead(o, d, s).result.Success? ==> FitSlots(AndRead(o, d, s).result.value, slots + [s])
  {
    if AndRead(o, d, s).result.Success? {
      var vs := o.result.value;
      var v := ReadSpec(o.world, d, s).result.value;
      assert Fits(s.kind, v);
      forall i | 0 <= i < |vs| + 1
        ensures Fits((slots + [s])[i].kind, (vs + [v])[i])
      {
        if i < |vs| {
          assert (slots + [s])[i] == slots[i];
        }
      }
    }
  }

  /** Every value the common block's reads return fits the slot it came from. */
  lemma CommonReadsFit(w: World, d: Dialect)
    ensures CommonReads(w, d).result.Success? ==> FitSlots(CommonReads(w, d).result.value, COMMON_SLOTS)
  {
    var ss := COMMON_SLOTS;
    var o0 := AndRead(Outcome(w, Success([])), d, ss[0]);
    AndReadFits(Outcome(w, Success([])), d, ss[0], []);
    var o1 := AndRead(o0, d, ss[1]);
    AndReadFits(o0, d, ss[1], [ss[0]]);
    var o2 := AndRead(o1, d, ss[2]);
    AndReadFits(o1, d, ss[2], [ss[0]] + [ss[1]]);
    var o3 := AndRead(o2, d, ss[3]);
    AndReadFits(o2, d, ss[3], [ss[0]] + [ss[1]] + [ss[2]]);
    var o4 := AndRead(o3, d, ss[4]);
    AndReadFits(o3, d, ss[4], [ss[0]] + [ss[1]] + [ss[2]] + [ss[3]]);
    var o5 := AndRead(o4, d, ss[5]);
    AndReadFits(o4, d, ss[5], [ss[0]] + [ss[1]] + [ss[2]] + [ss[3]] + [ss[4]]);
    AndReadFits(o5, d, ss[6], [ss[0]] + [ss[1]] + [ss[2]] + [ss[3]] + [ss[4]] + [ss[5]]);
    assert [ss[0]] + [ss[1]] + [ss[2]] + [ss[3]] + [ss[4]] + [ss[5]] + [ss[6]] == ss;
  }

  predicate AllReal(vs: seq<Value>)
  {
    forall i :: 0 <= i < |vs| ==> vs[i].Real?
  }

  /** A float read that succeeds adds a float. */
  lemma AndReadReal(o: Outcome<seq<Value>>, d: Dialect, s: Slot)
    requires s.kind == F32
    requires o.result.Success? ==> AllReal(o.result.value)
    ensures AndRead(o, d, s).result.Success? ==> AllReal(AndRead(o, d, s).result.value)
  {
    if AndRead(o, d, s).result.Success? {
      var vs := o.result.value;
      var v := ReadSpec(o.world, d, s).result.value;
      assert Fits(s.kind, v);
      forall i | 0 <= i < |vs| + 1
        ensures (vs + [v])[i].Real?
      {
        if i < |vs| {
          assert (vs + [v])[i] == vs[i];
        }
      }
    }
  }

  /** Every coefficient read back is a float. */
  lemma CoefficientReadsFit(w: World, d: Dialect, block: byte)
    ensures CoefficientReads(w, d, block).result.Success? ==> AllReal(CoefficientReads(w, d, block).result.value)
  {
    var ss := RangeSlots(block);
    var o0 := AndRead(Outcome(w, Success([])), d, ss[0]);
    AndReadReal(Outcome(w, Success([])), d, ss[0]);
    var o1 := AndRead(o0, d, ss[1]);
    AndReadReal(o0, d, ss[1]);
    var o2 := AndRead(o1, d, ss[2]);
    AndReadReal(o1, d, ss[2]);
    var o3 := AndRead(o2, d, ss[3]);
    AndReadReal(o2, d, ss[3]);
    var o4 := AndRead(o3, d, ss[4]);
    AndReadReal(o3, d, ss[4]);
    var o5 := AndRead(o4, d, ss[5]);
    AndReadReal(o4, d, ss[5]);
    var o6 := AndRead(o5, d, ss[6]);
    AndReadReal(o5, d, ss[6]);
    var o7 := AndRead(o6, d, ss[7]);
    AndReadReal(o6, d, ss[7]);
    AndReadReal(o7, d, ss[8]);
  }

  /** A range read back whole has only float coefficients. */
  lemma RangeSpecFits(w: World, d: Dialect, block: byte)
    requires RangeSpec(w, d, block).result.Success? && RangeSpec(w, d, block).result.value.Some?
    ensures forall i :: 0 <= i < 9 ==> Coefficients(RangeSpec(w, d, block).result.value.value)[i].Real?
  {
    var flag := ReadSpec(w, d, IsSetSlot(block));
    CoefficientReadsFit(flag.world, d, block);
  }

  /** A record retrieved from the device can be stored back: every field has its slot's type. */
  lemma RetrievedIsStorable(w: World, d: Dialect)
    requires RetrieveSpec(w, d).result.Success?
    ensures Storable(RetrieveSpec(w, d).result.value)
  {
    var common := CommonReads(w, d);
    CommonReadsFit(w, d);
    var o0 := AndRange(Outcome(common.world, Success([])), d, RANGE_BLOCKS[0]);
    AndRangeFits(Outcome(common.world, Success([])), d, RANGE_BLOCKS[0]);
    var o1 := AndRange(o0, d, RANGE_BLOCKS[1]);
    AndRangeFits(o0, d, RANGE_BLOCKS[1]);
    var o2 := AndRange(o1, d, RANGE_BLOCKS[2]);
    AndRangeFits(o1, d, RANGE_BLOCKS[2]);
    var o3 := AndRange(o2, d, RANGE_BLOCKS[3]);
    AndRangeFits(o2, d, RANGE_BLOCKS[3]);
    AndRangeFits(o3, d, RANGE_BLOCKS[4]);
    var c := RetrieveSpec(w, d).result.value;
    assert CommonFields(c) == common.result.value;
    assert Fits(COMMON_SLOTS[0].kind, CommonFields(c)[0]) && Fits(COMMON_SLOTS[1].kind, CommonFields(c)[1]);
    assert Fits(COMMON_SLOTS[2].kind, CommonFields(c)[2]) && Fits(COMMON_SLOTS[3].kind, CommonFields(c)[3]);
    assert Fits(COMMON_SLOTS[4].kind, CommonFields(c)[4]) && Fits(COMMON_SLOTS[5].kind, CommonFields(c)[5]);
    assert Fits(COMMON_SLOTS[6].kind, CommonFields(c)[6]);
  }

  /** A range read after others keeps every present range made of floats. */
  lemma AndRangeFits(o: Outcome<seq<Option<RangeCalib>>>, d: Dialect, block: byte)
    requires o.result.Success? ==> FloatRanges(o.result.value)
    ensures AndRange(o, d, block).result.Success? ==> FloatRanges(AndRange(o, d, block).result.value)
  {
    if AndRange(o, d, block).result.Success? {
      var rc := RangeSpec(o.world, d, block);
      if rc.result.value.Some? {
        RangeSpecFits(o.world, d, block);
      }
      var rs := o.result.value + [rc.result.value];
      forall r | r in rs && r.Some?
        ensures forall i :: 0 <= i < 9 ==> Coefficients(r.value)[i].Real?
      {
        assert r in o.result.value || r == rc.result.value;
      }
    }
  }

  // ---------------------------------------------------------------------------------------------
  // the EEPROM the record lives in

  /** The device's calibration store: the bytes last written at each (block, index). */
  type Eeprom = map<(byte, byte), seq<byte>>

  /** What the plan's writes leave behind, applied in order. */
  function Burn(e: Eeprom, plan: seq<Write>): Eeprom
    requires AllFit(plan)
    decreases |plan|
  {
    if plan == [] then e
    else Burn(e[Cell(plan[0]) := Encode(plan[0].slot.kind, plan[0].value).value], plan[1..])
  }

  /** A `cr` of one slot: the cell's bytes decoded as the slot's kind; a cell never written, or of another width, cannot be decoded. */
  function Fetched(e: Eeprom, s: Slot): (r: Result<Value, Fault>)
    ensures r.Success? ==> Fits(s.kind, r.value)
  {
    var at := (s.block, s.index);
    if at in e && |e[at]| == Width(s.kind) then Success(Decode(s.kind, e[at])) else Failure(Undecodable)
  }

  function FetchedAll(e: Eeprom, slots: seq<Slot>): (r: Result<seq<Value>, Fault>)
    ensures r.Success? ==> |r.value| == |slots|
    decreases |slots|
  {
    if slots == [] then Success([])
    else
      var v :- Fetched(e, slots[0]);
      var vs :- FetchedAll(e, slots[1..]);
      Success([v] + vs)
  }

  function RecallRange(e: Eeprom, block: byte): Result<Option<RangeCalib>, Fault>
  {
    var flag :- Fetched(e, IsSetSlot(block));
    if flag == Int(0) then Success(None)
    else
      var vs :- FetchedAll(e, RangeSlots(block));
      Success(Some(RangeOf(vs)))
  }

  function RecallRanges(e: Eeprom, blocks: seq<byte>): (r: Result<seq<Option<RangeCalib>>, Fault>)
    ensures r.Success? ==> |r.value| == |blocks|
    decreases |blocks|
  {
    if blocks == [] then Success([])
    else
      var first :- RecallRange(e, blocks[0]);
      var rest :- RecallRanges(e, blocks[1..]);
      Success([first] + rest)
  }

  /** `retrieve_calib` against the EEPROM. */
  function Recall(e: Eeprom): Result<Calib, Fault>
  {
    var common :- FetchedAll(e, COMMON_SLOTS);
    var ranges :- RecallRanges(e, RANGE_BLOCKS);
    Success(CalibOf(common, ranges))
  }

  /** Each write of the plan is what its cell now holds. */
  predicate Holds(e: Eeprom, plan: seq<Write>)
  {
    forall i :: 0 <= i < |plan| ==> Cell(plan[i]) in e && Some(e[Cell(plan[i])]) == Encode(plan[i].slot.kind, plan[i].value)
  }

  /** A cell no write of the plan lands in keeps what it held. */
  lemma {:induction false} BurnElsewhere(e: Eeprom, plan: seq<Write>, at: (byte, byte))
    requires AllFit(plan)
    requires forall i :: 0 <= i < |plan| ==> Cell(plan[i]) != at
    ensures (at in Burn(e, plan) <==> at in e) && (at in e ==> Burn(e, plan)[at] == e[at])
    decreases |plan|
  {
    if plan != [] {
      var x := plan[0];
      var e' := e[Cell(x) := Encode(x.slot.kind, x.value).value];
      BurnElsewhere(e', plan[1..], at);
    }
  }

  /** When no two writes share a cell, every write of the plan survives to the end. */
  lemma {:induction false} BurnHolds(e: Eeprom, plan: seq<Write>)
    requires AllFit(plan) && Spread(plan)
    ensures Holds(Burn(e, plan), plan)
    decreases |plan|
  {
    if plan != [] {
      var x := plan[0];
      var rest := plan[1..];
      var e' := e[Cell(x) := Encode(x.slot.kind, x.value).value];
      BurnHolds(e', rest);
      BurnElsewhere(e', rest, Cell(x));
      var m := Burn(e, plan);
      forall i | 0 <= i < |plan|
        ensures Cell(plan[i]) in m && Some(m[Cell(plan[i])]) == Encode(plan[i].slot.kind, plan[i].value)
      {
        if i > 0 {
          assert plan[i] == rest[i - 1];
        }
      }
    }
  }

  lemma SpreadAppend(a: seq<Write>, b: seq<Write>, A: set<byte>, B: set<byte>)
    requires Spread(a) && Spread(b) && InBlocks(a, A) && InBlocks(b, B) && A !! B
    ensures Spread(a + b) && InBlocks(a + b, A + B)
  {
    forall i, j | 0 <= i < j < |a + b|
      ensures Cell((a + b)[i]) != Cell((a + b)[j])
    {
      if j < |a| {
        assert (a + b)[i] == a[i] && (a + b)[j] == a[j];
      } else if i >= |a| {
        assert (a + b)[i] == b[i - |a|] && (a + b)[j] == b[j - |a|];
      } else {
        assert (a + b)[i] == a[i] && (a + b)[j] == b[j - |a|];
      }
    }
    forall i | 0 <= i < |a + b|
      ensures (a + b)[i].slot.block in A + B
    {
      if i >= |a| {
        assert (a + b)[i] == b[i - |a|];
      }
    }
  }

  lemma RangePlanShape(block: byte, r: Option<RangeCalib>)
    ensures Spread(RangePlan(block, r)) && InBlocks(RangePlan(block, r), {block})
  {
    var p := RangePlan(block, r);
    LayoutDistinct();
  }

  /** No two writes of a store land in the same cell. */
  lemma StorePlanSpread(c: Calib)
    ensures Spread(StorePlan(c))
  {
    var p0 := CommonPlan(c);
    LayoutDistinct();
    assert Spread(p0) && InBlocks(p0, {COMMON_BLOCK});
    RangePlanShape(RANGE_IAQ, c.rangeIaq);
    RangePlanShape(RANGE_SAFETY, c.rangeSafety);
    RangePlanShape(RANGE_COMBUSTION, c.rangeCombustion);
    RangePlanShape(RANGE_INDUSTRIAL, c.rangeIndustrial);
    RangePlanShape(RANGE_CUSTOM, c.rangeCustom);
    var p1 := p0 + RangePlan(RANGE_IAQ, c.rangeIaq);
    SpreadAppend(p0, RangePlan(RANGE_IAQ, c.rangeIaq), {0}, {1});
    var p2 := p1 + RangePlan(RANGE_SAFETY, c.rangeSafety);
    SpreadAppend(p1, RangePlan(RANGE_SAFETY, c.rangeSafety), {0, 1}, {2});
    var p3 := p2 + RangePlan(RANGE_COMBUSTION, c.rangeCombustion);
    SpreadAppend(p2, RangePlan(RANGE_COMBUSTION, c.rangeCombustion), {0, 1, 2}, {3});
    var p4 := p3 + RangePlan(RANGE_INDUSTRIAL, c.rangeIndustrial);
    SpreadAppend(p3, RangePlan(RANGE_INDUSTRIAL, c.rangeIndustrial), {0, 1, 2, 3}, {4});
    SpreadAppend(p4, RangePlan(RANGE_CUSTOM, c.rangeCustom), {0, 1, 2, 3, 4}, {5});
  }

  lemma FetchedHolds(e: Eeprom, x: Write)
    requires Cell(x) in e && Some(e[Cell(x)]) == Encode(x.slot.kind, x.value)
    ensures Fetched(e, x.slot) == Success(x.value)
  {
    EncodeThenDecode(x.slot.kind, x.value);
  }

  lemma {:induction false} FetchedAllHolds(e: Eeprom, plan: seq<Write>, slots: seq<Slot>, values: seq<Value>)
    requires Holds(e, plan)
    requires |slots| == |values| == |plan|
    requires forall i :: 0 <= i < |plan| ==> plan[i] == Write(slots[i], values[i])
    ensures FetchedAll(e, slots) == Success(values)
    decreases |plan|
  {
    if plan != [] {
      FetchedHolds(e, plan[0]);
      FetchedAllHolds(e, plan[1..], slots[1..], values[1..]);
      assert values == [values[0]] + values[1..];
    }
  }

  lemma RecallRangeHolds(e: Eeprom, block: byte, r: Option<RangeCalib>)
    requires Holds(e, RangePlan(block, r))
    ensures RecallRange(e, block) == Success(r)
  {
    var p := RangePlan(block, r);
    FetchedHolds(e, p[0]);
    if r.Some? {
      assert Holds(e, p[1..]);
      FetchedAllHolds(e, p[1..], RangeSlots(block), Coefficients(r.value));
    }
  }

  lemma {:induction false} RecallRangesHolds(e: Eeprom, blocks: seq<byte>, ranges: seq<Option<RangeCalib>>)
    requires |blocks| == |ranges|
    requires forall i :: 0 <= i < |blocks| ==> Holds(e, RangePlan(blocks[i], ranges[i]))
    ensures RecallRanges(e, blocks) == Success(ranges)
    decreases |blocks|
  {
    if blocks != [] {
      RecallRangeHolds(e, blocks[0], ranges[0]);
      RecallRangesHolds(e, blocks[1..], ranges[1..]);
      assert ranges == [ranges[0]] + ranges[1..];
    }
  }

  lemma HoldsAppend(e: Eeprom, a: seq<Write>, b: seq<Write>)
    requires Holds(e, a + b)
    ensures Holds(e, a) && Holds(e, b)
  {
    assert forall i :: 0 <= i < |a| ==> (a + b)[i] == a[i];
    assert forall i :: 0 <= i < |b| ==> (a + b)[|a| + i] == b[i];
  }

  /** An EEPROM holding the whole plan holds each part of it. */
  lemma StorePlanParts(m: Eeprom, c: Calib)
    requires Holds(m, StorePlan(c))
    ensures Holds(m, CommonPlan(c))
    ensures forall i :: 0 <= i < |RANGE_BLOCKS| ==> Holds(m, RangePlan(RANGE_BLOCKS[i], Ranges(c)[i]))
  {
    var p0 := CommonPlan(c);
    var p1 := p0 + RangePlan(RANGE_IAQ, c.rangeIaq);
    var p2 := p1 + RangePlan(RANGE_SAFETY, c.rangeSafety);
    var p3 := p2 + RangePlan(RANGE_COMBUSTION, c.rangeCombustion);
    var p4 := p3 + RangePlan(RANGE_INDUSTRIAL, c.rangeIndustrial);
    HoldsAppend(m, p4, RangePlan(RANGE_CUSTOM, c.rangeCustom));
    HoldsAppend(m, p3, RangePlan(RANGE_INDUSTRIAL, c.rangeIndustrial));
    HoldsAppend(m, p2, RangePlan(RANGE_COMBUSTION, c.rangeCombustion));
    HoldsAppend(m, p1, RangePlan(RANGE_SAFETY, c.rangeSafety));
    HoldsAppend(m, p0, RangePlan(RANGE_IAQ, c.rangeIaq));
    assert Ranges(c) == [c.rangeIaq, c.rangeSafety, c.rangeCombustion, c.rangeIndustrial, c.rangeCustom];
  }

  /** An EEPROM whose cells hold a record's writes reads back as that record. */
  lemma HoldsRecall(m: Eeprom, c: Calib)
    requires Holds(m, CommonPlan(c))
    requires forall i :: 0 <= i < |RANGE_BLOCKS| ==> Holds(m, RangePlan(RANGE_BLOCKS[i], Ranges(c)[i]))
    ensures Recall(m) == Success(c)
  {
    FetchedAllHolds(m, CommonPlan(c), COMMON_SLOTS, CommonFields(c));
    RecallRangesHolds(m, RANGE_BLOCKS, Ranges(c));
    CalibOfFields(c);
  }

  /**
   * The EEPROM a storable record was written to reads back as that record,
   * every field from its own (block, index) at its own width, and each range
   * present exactly when it was stored present.
   */
  lemma BurnRecalls(e: Eeprom, c: Calib)
    requires Storable(c)
    ensures AllFit(StorePlan(c))
    ensures Recall(Burn(e, StorePlan(c))) == Success(c)
  {
    StorableIff(c);
    StorePlanSpread(c);
    BurnHolds(e, StorePlan(c));
    StorePlanParts(Burn(e, StorePlan(c)), c);
    HoldsRecall(Burn(e, StorePlan(c)), c);
  }

  /** An absent range is stored as a zero flag and nothing else: its coefficients' cells keep whatever they held. */
  lemma AbsentRangeWritesFlagOnly(e: Eeprom, block: byte)
    ensures RangePlan(block, None) == [Write(IsSetSlot(block), Int(0))]
    ensures forall s :: s in RangeSlots(block) ==>
      ((s.block, s.index) in Burn(e, RangePlan(block, None)) <==> (s.block, s.index) in e) &&
      ((s.block, s.index) in e ==> Burn(e, RangePlan(block, None))[(s.block, s.index)] == e[(s.block, s.index)])
  {
    forall s | s in RangeSlots(block)
      ensures ((s.block, s.index) in Burn(e, RangePlan(block, None)) <==> (s.block, s.index) in e) &&
        ((s.block, s.index) in e ==> Burn(e, RangePlan(block, None))[(s.block, s.index)] == e[(s.block, s.index)])
    {
      LayoutDistinct();
      BurnElsewhere(e, RangePlan(block, None), (s.block, s.index));
    }
  }

  // ---------------------------------------------------------------------------------------------
  // the retrieve against a device whose EEPROM holds a record

  /**
   * What the device clocks out for one `cr` of slot `s` while its EEPROM is
   * `e`: an accepted status byte, then the bytes its cell holds.
   */
  function Reply(e: Eeprom, status: byte, s: Slot): (bs: seq<byte>)
    ensures bs != [] && bs[0] == status
  {
    [status] + (if (s.block, s.index) in e then e[(s.block, s.index)] else [])
  }

  /** The replies to reading `slots` one after another. */
  function Replies(e: Eeprom, status: byte, slots: seq<Slot>): seq<byte>
    decreases |slots|
  {
    if slots == [] then [] else Reply(e, status, slots[0]) + Replies(e, status, slots[1..])
  }

  /** The replies to `_retrieve_range_calib`: the flag, then the nine coefficients unless the flag reads 0. */
  function RangeReplies(e: Eeprom, status: byte, block: byte): seq<byte>
  {
    Reply(e, status, IsSetSlot(block)) +
    (if Fetched(e, IsSetSlot(block)) == Success(Int(0)) then [] else Replies(e, status, RangeSlots(block)))
  }

  function RangesReplies(e: Eeprom, status: byte, blocks: seq<byte>): seq<byte>
    decreases |blocks|
  {
    if blocks == [] then [] else RangeReplies(e, status, blocks[0]) + RangesReplies(e, status, blocks[1..])
  }

  /** The replies to `retrieve_calib`, in the order it reads: the common block, then the five ranges. */
  function RetrieveReplies(e: Eeprom, status: byte): seq<byte>
  {
    Replies(e, status, COMMON_SLOTS) + RangesReplies(e, status, RANGE_BLOCKS)
  }

  /**
   * One `_calib_r_*` against a device holding `e`: the value read is the one
   * the cell holds, exactly the reply is consumed, and `cr` stays sendable.
   */
  lemma ReadReplies(w: World, d: Dialect, e: Eeprom, status: byte, s: Slot, rest: seq<byte>)
    requires Sendable(w, "cr") && Classify(d, status).None? && Fetched(e, s).Success?
    requires w.link.incoming == Reply(e, status, s) + rest
    ensures var o := ReadSpec(w, d, s);
      o.result == Fetched(e, s) && o.world.link.incoming == rest && Sendable(o.world, "cr")
  {
    var at := (s.block, s.index);
    var n := Width(s.kind);
    var counted := Lookup(w.commands, "cr").value.(returnCount := Some(n));
    assert w.link.incoming == [status] + e[at] + rest;
    assert Clocked(w.link.incoming, 1)[0] == status;
    ReadsExactlyCount(w.link, d, counted, Some(Address(s)), None);
    assert Clocked(w.link.incoming, 1 + n)[1..] == e[at];
    assert w.link.incoming[1 + n..] == rest;
  }

  lemma Regroup<T>(a: seq<T>, b: seq<T>, c: seq<T>)
    ensures a + (b + c) == a + b + c
  {
  }

  /** One more read against a device holding `e` adds the value its cell holds. */
  lemma AndReadReplies(o: Outcome<seq<Value>>, d: Dialect, e: Eeprom, status: byte, s: Slot, rest: seq<byte>)
    requires o.result.Success? && Sendable(o.world, "cr") && Classify(d, status).None? && Fetched(e, s).Success?
    requires o.world.link.incoming == Reply(e, status, s) + rest
    ensures var r := AndRead(o, d, s);
      r.result == Success(o.result.value + [Fetched(e, s).value]) && r.world.link.incoming == rest &&
      Sendable(r.world, "cr")
  {
    ReadReplies(o.world, d, e, status, s, rest);
  }

  lemma FetchedAllCons(e: Eeprom, slots: seq<Slot>)
    requires slots != [] && FetchedAll(e, slots).Success?
    ensures Fetched(e, slots[0]).Success? && FetchedAll(e, slots[1..]).Success?
    ensures FetchedAll(e, slots).value == [Fetched(e, slots[0]).value] + FetchedAll(e, slots[1..]).value
  {
  }

  /** The reads of `slots`, one after another, onto the values `o` has read so far. */
  function ReadAll(o: Outcome<seq<Value>>, d: Dialect, slots: seq<Slot>): Outcome<seq<Value>>
    decreases |slots|
  {
    if slots == [] then o else ReadAll(AndRead(o, d, slots[0]), d, slots[1..])
  }

  lemma ReadAllStep(o: Outcome<seq<Value>>, d: Dialect, slots: seq<Slot>, k: nat)
    requires k < |slots|
    ensures ReadAll(o, d, slots[k..]) == ReadAll(AndRead(o, d, slots[k]), d, slots[k + 1..])
  {
    assert slots[k..][1..] == slots[k + 1..];
  }

  lemma {:induction false} ReadAllReplies(o: Outcome<seq<Value>>, d: Dialect, e: Eeprom, status: byte, slots: seq<Slot>, rest: seq<byte>)
    requires o.result.Success? && Sendable(o.world, "cr") && Classify(d, status).None?
    requires FetchedAll(e, slots).Success?
    requires o.world.link.incoming == Replies(e, status, slots) + rest
    ensures var r := ReadAll(o, d, slots);
      r.result == Success(o.result.value + FetchedAll(e, slots).value) && r.world.link.incoming == rest &&
      Sendable(r.world, "cr")
    decreases |slots|
  {
    if slots == [] {
      assert o.result.value + [] == o.result.value;
    } else {
      var tail := Replies(e, status, slots[1..]) + rest;
      assert o.world.link.incoming == Reply(e, status, slots[0]) + tail by {
        assert Replies(e, status, slots) == Reply(e, status, slots[0]) + Replies(e, status, slots[1..]);
      }
      FetchedAllCons(e, slots);
      AndReadReplies(o, d, e, status, slots[0], tail);
      var o' := AndRead(o, d, slots[0]);
      assert ReadAll(o, d, slots) == ReadAll(o', d, slots[1..]);
      ReadAllReplies(o', d, e, status, slots[1..], rest);
      Regroup(o.result.value, [Fetched(e, slots[0]).value], FetchedAll(e, slots[1..]).value);
    }
  }

  /** The seven common reads are the reads of the common slots in order. */
  lemma CommonReadsAll(w: World, d: Dialect)
    ensures CommonReads(w, d) == ReadAll(Outcome(w, Success([])), d, COMMON_SLOTS)
  {
    var S := COMMON_SLOTS;
    var o := Outcome(w, Success([]));
    assert S[0..] == S;
    ReadAllStep(o, d, S, 0);
    var o0 := AndRead(o, d, S[0]);
    ReadAllStep(o0, d, S, 1);
    var o1 := AndRead(o0, d, S[1]);
    ReadAllStep(o1, d, S, 2);
    var o2 := AndRead(o1, d, S[2]);
    ReadAllStep(o2, d, S, 3);
    var o3 := AndRead(o2, d, S[3]);
    ReadAllStep(o3, d, S, 4);
    var o4 := AndRead(o3, d, S[4]);
    ReadAllStep(o4, d, S, 5);
    var o5 := AndRead(o4, d, S[5]);
    ReadAllStep(o5, d, S, 6);
    assert S[7..] == [];
  }

  /** The nine coefficient reads are the reads of the range's slots in order. */
  lemma CoefficientReadsAll(w: World, d: Dialect, block: byte)
    ensures CoefficientReads(w, d, block) == ReadAll(Outcome(w, Success([])), d, RangeSlots(block))
  {
    var S := RangeSlots(block);
    var o := Outcome(w, Success([]));
    assert S[0..] == S;
    ReadAllStep(o, d, S, 0);
    var o0 := AndRead(o, d, S[0]);
    ReadAllStep(o0, d, S, 1);
    var o1 := AndRead(o0, d, S[1]);
    ReadAllStep(o1, d, S, 2);
    var o2 := AndRead(o1, d, S[2]);
    ReadAllStep(o2, d, S, 3);
    var o3 := AndRead(o2, d, S[3]);
    ReadAllStep(o3, d, S, 4);
    var o4 := AndRead(o3, d, S[4]);
    ReadAllStep(o4, d, S, 5);
    var o5 := AndRead(o4, d, S[5]);
    ReadAllStep(o5, d, S, 6);
    var o6 := AndRead(o5, d, S[6]);
    ReadAllStep(o6, d, S, 7);
    var o7 := AndRead(o6, d, S[7]);
    ReadAllStep(o7, d, S, 8);
    assert S[9..] == [];
  }

  /** `_retrieve_range_calib` against a device holding `e` gives the range the EEPROM holds. */
  lemma RangeSpecReplies(w: World, d: Dialect, e: Eeprom, status: byte, block: byte, rest: seq<byte>)
    requires Sendable(w, "cr") && Classify(d, status).None? && RecallRange(e, block).Success?
    requires w.link.incoming == RangeReplies(e, status, block) + rest
    ensures var o := RangeSpec(w, d, block);
      o.result == RecallRange(e, block) && o.world.link.incoming == rest && Sendable(o.world, "cr")
  {
    var flagSlot := IsSetSlot(block);
    var unset := Fetched(e, flagSlot) == Success(Int(0));
    var tail := (if unset then [] else Replies(e, status, RangeSlots(block))) + rest;
    assert w.link.incoming == Reply(e, status, flagSlot) + tail;
    ReadReplies(w, d, e, status, flagSlot, tail);
    var flag := ReadSpec(w, d, flagSlot);
    if !unset {
      CoefficientReadsAll(flag.world, d, block);
      ReadAllReplies(Outcome(flag.world, Success([])), d, e, status, RangeSlots(block), rest);
      assert [] + FetchedAll(e, RangeSlots(block)).value == FetchedAll(e, RangeSlots(block)).value;
    }
  }

  /** One more range retrieval against a device holding `e` adds the range the EEPROM holds. */
  lemma AndRangeReplies(o: Outcome<seq<Option<RangeCalib>>>, d: Dialect, e: Eeprom, status: byte, block: byte, rest: seq<byte>)
    requires o.result.Success? && Sendable(o.world, "cr") && Classify(d, status).None? && RecallRange(e, block).Success?
    requires o.world.link.incoming == RangeReplies(e, status, block) + rest
    ensures var r := AndRange(o, d, block);
      r.result == Success(o.result.value + [RecallRange(e, block).value]) && r.world.link.incoming == rest &&
      Sendable(r.world, "cr")
  {
    RangeSpecReplies(o.world, d, e, status, block, rest);
  }

  lemma RecallRangesCons(e: Eeprom, blocks: seq<byte>)
    requires blocks != [] && RecallRanges(e, blocks).Success?
    ensures RecallRange(e, blocks[0]).Success? && RecallRanges(e, blocks[1..]).Success?
    ensures RecallRanges(e, blocks).value == [RecallRange(e, blocks[0]).value] + RecallRanges(e, blocks[1..]).value
  {
  }

  /** The range retrievals of `blocks`, one after another. */
  function RangeAll(o: Outcome<seq<Option<RangeCalib>>>, d: Dialect, blocks: seq<byte>): Outcome<seq<Option<RangeCalib>>>
    decreases |blocks|
  {
    if blocks == [] then o else RangeAll(AndRange(o, d, blocks[0]), d, blocks[1..])
  }

  lemma RangeAllStep(o: Outcome<seq<Option<RangeCalib>>>, d: Dialect, blocks: seq<byte>, k: nat)
    requires k < |blocks|
    ensures RangeAll(o, d, blocks[k..]) == RangeAll(AndRange(o, d, blocks[k]), d, blocks[k + 1..])
  {
    assert blocks[k..][1..] == blocks[k + 1..];
  }

  lemma {:induction false} RangeAllReplies(o: Outcome<seq<Option<RangeCalib>>>, d: Dialect, e: Eeprom, status: byte,
                                           blocks: seq<byte>, rest: seq<byte>)
    requires o.result.Success? && Sendable(o.world, "cr") && Classify(d, status).None?
    requires RecallRanges(e, blocks).Success?
    requires o.world.link.incoming == RangesReplies(e, status, blocks) + rest
    ensures var r := RangeAll(o, d, blocks);
      r.result == Success(o.result.value + RecallRanges(e, blocks).value) && r.world.link.incoming == rest &&
      Sendable(r.world, "cr")
    decreases |blocks|
  {
    if blocks == [] {
      assert o.result.value + [] == o.result.value;
    } else {
      var tail := RangesReplies(e, status, blocks[1..]) + rest;
      assert o.world.link.incoming == RangeReplies(e, status, blocks[0]) + tail;
      AndRangeReplies(o, d, e, status, blocks[0], tail);
      var o' := AndRange(o, d, blocks[0]);
      RangeAllReplies(o', d, e, status, blocks[1..], rest);
      RecallRangesCons(e, blocks);
      Regroup(o.result.value, [RecallRange(e, blocks[0]).value], RecallRanges(e, blocks[1..]).value);
    }
  }

  /** The five range retrievals are those of the range blocks in order. */
  lemma RangesReadAll(w: World, d: Dialect)
    ensures RangesRead(w, d) == RangeAll(Outcome(w, Success([])), d, RANGE_BLOCKS)
  {
    var B := RANGE_BLOCKS;
    var o := Outcome(w, Success([]));
    assert B[0..] == B;
    RangeAllStep(o, d, B, 0);
    var o0 := AndRange(o, d, B[0]);
    RangeAllStep(o0, d, B, 1);
    var o1 := AndRange(o0, d, B[1]);
    RangeAllStep(o1, d, B, 2);
    var o2 := AndRange(o1, d, B[2]);
    RangeAllStep(o2, d, B, 3);
    var o3 := AndRange(o2, d, B[3]);
    RangeAllStep(o3, d, B, 4);
    assert B[5..] == [];
  }

  /**
   * `retrieve_calib` against a device whose EEPROM is `e` and which accepts
   * every `cr`: the SPI traffic returns exactly the record the EEPROM holds,
   * and consumes exactly the device's replies.
   */
  lemma RetrieveReadsEeprom(w: World, d: Dialect, e: Eeprom, status: byte, rest: seq<byte>)
    requires Sendable(w, "cr") && Classify(d, status).None? && Recall(e).Success?
    requires w.link.incoming == RetrieveReplies(e, status) + rest
    ensures RetrieveSpec(w, d).result == Recall(e)
    ensures RetrieveSpec(w, d).world.link.incoming == rest
  {
    var tail := RangesReplies(e, status, RANGE_BLOCKS) + rest;
    assert w.link.incoming == Replies(e, status, COMMON_SLOTS) + tail;
    CommonReadsAll(w, d);
    ReadAllReplies(Outcome(w, Success([])), d, e, status, COMMON_SLOTS, tail);
    var common := CommonReads(w, d);
    assert common.result.value == FetchedAll(e, COMMON_SLOTS).value;
    RangesReadAll(common.world, d);
    RangeAllReplies(Outcome(common.world, Success([])), d, e, status, RANGE_BLOCKS, rest);
    assert [] + RecallRanges(e, RANGE_BLOCKS).value == RecallRanges(e, RANGE_BLOCKS).value;
  }

  /**
   * Retrieving from a device whose cells hold a record's writes gives that
   * record back, both as the EEPROM's contents and as the `cr` traffic of
   * `retrieve_calib`.
   */
  lemma HoldsThenRecall(m: Eeprom, c: Calib, w: World, d: Dialect, status: byte, rest: seq<byte>)
    requires Holds(m, CommonPlan(c))
    requires forall i :: 0 <= i < |RANGE_BLOCKS| ==> Holds(m, RangePlan(RANGE_BLOCKS[i], Ranges(c)[i]))
    requires Sendable(w, "cr") && Classify(d, status).None?
    requires w.link.incoming == RetrieveReplies(m, status) + rest
    ensures Recall(m) == Success(c)
    ensures RetrieveSpec(w, d).result == Success(c) && RetrieveSpec(w, d).world.link.incoming == rest
  {
    HoldsRecall(m, c);
    RetrieveReadsEeprom(w, d, m, status, rest);
  }

  /**
   * Store then retrieve: after `store_calib(c)` has burned a storable record
   * into the device's EEPROM, `retrieve_calib` reads back `c` itself, every
   * field from its own (block, index) at its own width and each range
   * present exactly when it was stored present.
   */
  lemma StoreThenRecall(e: Eeprom, c: Calib, w: World, d: Dialect, status: byte, rest: seq<byte>)
    requires Storable(c)
    requires Sendable(w, "cr") && Classify(d, status).None?
    requires (StorableIff(c); w.link.incoming == RetrieveReplies(Burn(e, StorePlan(c)), status) + rest)
    ensures AllFit(StorePlan(c))
    ensures Recall(Burn(e, StorePlan(c))) == Success(c)
    ensures RetrieveSpec(w, d).result == Success(c) && RetrieveSpec(w, d).world.link.incoming == rest
  {
    BurnRecalls(e, c);
    RetrieveReadsEeprom(w, d, Burn(e, StorePlan(c)), status, rest);
  }

  // ---------------------------------------------------------------------------------------------
  // the driver steps

  /** One `_calib_w_*`. */
  method WriteField(e: Engine, x: Write) returns (r: Result<(), Fault>)
    modifies e.port
    ensures Outcome(e.Now(), r) == WriteSpec(old(e.Now()), e.dialect, x)
  {
    var p := e.Store("cw", Address(x.slot), x.slot.kind, x.value);
    r := if p.Success? then Success(()) else Failure(p.error);
  }

  /** `_store_range_calib`. */
  method StoreRange(e: Engine, block: byte, rc: Option<RangeCalib>) returns (r: Result<(), Fault>)
    modifies e.port
    ensures Outcome(e.Now(), r) == RangeWrites(old(e.Now()), e.dialect, block, rc)
  {
    if rc.None? {
      r := WriteField(e, Write(IsSetSlot(block), Int(0)));
      return;
    }
    r := WriteField(e, Write(IsSetSlot(block), Int(1)));
    if r.Success? {
      r := StoreCoefficients(e, block, rc.value);
    }
  }

  /** The nine coefficient writes of a present range, after its flag. */
  method StoreCoefficients(e: Engine, block: byte, c: RangeCalib) returns (r: Result<(), Fault>)
    modifies e.port
    ensures Outcome(e.Now(), r) == CoefficientWrites(old(e.Now()), e.dialect, block, c)
  {
    r := WriteField(e, Write(Slot(block, INDEX_ZERO, F32), c.zero));
    if r.Failure? { return; }
    r := WriteField(e, Write(Slot(block, INDEX_SPAN, F32), c.span));
    if r.Failure? { return; }
    r := WriteField(e, Write(Slot(block, INDEX_LINEAR_B, F32), c.linearB));
    if r.Failure? { return; }
    r := WriteField(e, Write(Slot(block, INDEX_LINEAR_C, F32), c.linearC));
    if r.Failure? { return; }
    r := WriteField(e, Write(Slot(block, INDEX_ALPHA_LOW, F32), c.alphaLow));
    if r.Failure? { return; }
    r := WriteField(e, Write(Slot(block, INDEX_ALPHA_HIGH, F32), c.alphaHigh));
    if r.Failure? { return; }
    r := WriteField(e, Write(Slot(block, INDEX_BETA_A, F32), c.betaA));
    if r.Failure? { return; }
    r := WriteField(e, Write(Slot(block, INDEX_BETA_O, F32), c.betaO));
    if r.Failure? { return; }
    r := WriteField(e, Write(Slot(block, INDEX_T_CAL, F32), c.tCal));
  }

  /** The common block's seven writes, as `store_calib` issues them. */
  method StoreCommon(e: Engine, c: Calib) returns (r: Result<(), Fault>)
    modifies e.port
    ensures Outcome(e.Now(), r) == CommonWrites(old(e.Now()), e.dialect, c)
  {
    r := WriteField(e, Write(Slot(COMMON_BLOCK, INDEX_NDIR_SERIAL, U32), c.ndirSerial));
    if r.Failure? { return; }
    r := WriteField(e, Write(Slot(COMMON_BLOCK, INDEX_BOARD_SERIAL, U32), c.boardSerial));
    if r.Failure? { return; }
    r := WriteField(e, Write(Slot(COMMON_BLOCK, INDEX_SELECTED_RANGE, U16), c.selectedRange));
    if r.Failure? { return; }
    r := WriteField(e, Write(Slot(COMMON_BLOCK, INDEX_LAMP_VOLTAGE, F32), c.lampVoltage));
    if r.Failure? { return; }
    r := WriteField(e, Write(Slot(COMMON_BLOCK, INDEX_LAMP_PERIOD, U16), c.lampPeriod));
    if r.Failure? { return; }
    r := WriteField(e, Write(Slot(COMMON_BLOCK, INDEX_SAMPLE_START, U16), c.sampleStart));
    if r.Failure? { return; }
    r := WriteField(e, Write(Slot(COMMON_BLOCK, INDEX_SAMPLE_END, U16), c.sampleEnd));
  }

  /** The body of `store_calib`, run while the lock is held: the whole plan, issued in order. */
  method StoreHeld(e: Engine, c: Calib) returns (r: Result<(), Fault>)
    modifies e.port
    ensures Outcome(e.Now(), r) == Issue(old(e.Now()), e.dialect, StorePlan(c))
  {
    StoreWritesIssue(e.Now(), e.dialect, c);
    r := StoreCommon(e, c);
    if r.Failure? { return; }
    r := StoreRange(e, RANGE_IAQ, c.rangeIaq);
    if r.Failure? { return; }
    r := StoreRange(e, RANGE_SAFETY, c.rangeSafety);
    if r.Failure? { return; }
    r := StoreRange(e, RANGE_COMBUSTION, c.rangeCombustion);
    if r.Failure? { return; }
    r := StoreRange(e, RANGE_INDUSTRIAL, c.rangeIndustrial);
    if r.Failure? { return; }
    r := StoreRange(e, RANGE_CUSTOM, c.rangeCustom);
  }

  /** `store_calib`: the store under the host lock, which is released on every path. */
  method StoreCalib(e: Engine, c: Calib) returns (r: Result<(), Fault>)
    modifies e.port, e.lock
    ensures Outcome(e.Now(), r) == Guard(e.lock.contended, old(e.Now()), Issue(old(e.Now()), e.dialect, StorePlan(c)))
    ensures !e.lock.held && e.lock.releases == old(e.lock.releases) + 1
  {
    var ok := e.lock.Obtain();
    if ok {
      r := StoreHeld(e, c);
    } else {
      r := Failure(LockTimeout);
    }
    e.lock.Release();
  }

  /** One `_calib_r_*`. */
  method ReadField(e: Engine, s: Slot) returns (r: Result<Value, Fault>)
    modifies e.port, e.table
    ensures Outcome(e.Now(), r) == ReadSpec(old(e.Now()), e.dialect, s)
  {
    r := e.Fetch("cr", Address(s), s.kind);
  }

  /** `_retrieve_range_calib`. */
  method RetrieveRange(e: Engine, block: byte) returns (r: Result<Option<RangeCalib>, Fault>)
    modifies e.port, e.table
    ensures Outcome(e.Now(), r) == RangeSpec(old(e.Now()), e.dialect, block)
  {
    var flag := ReadField(e, IsSetSlot(block));
    if flag.Failure? {
      return Failure(flag.error);
    }
    if flag.value == Int(0) {
      return Success(None);
    }
    var values := ReadCoefficients(e, block);
    if values.Failure? {
      return Failure(values.error);
    }
    r := Success(Some(RangeOf(values.value)));
  }

  /** The nine coefficient reads of a range whose flag is set. */
  method ReadCoefficients(e: Engine, block: byte) returns (r: Result<seq<Value>, Fault>)
    modifies e.port, e.table
    ensures Outcome(e.Now(), r) == CoefficientReads(old(e.Now()), e.dialect, block)
  {
    var values: seq<Value> := [];
    var v := ReadField(e, Slot(block, INDEX_ZERO, F32));
    if v.Failure? { return Failure(v.error); }
    values := values + [v.value];
    v := ReadField(e, Slot(block, INDEX_SPAN, F32));
    if v.Failure? { return Failure(v.error); }
    values := values + [v.value];
    v := ReadField(e, Slot(block, INDEX_LINEAR_B, F32));
    if v.Failure? { return Failure(v.error); }
    values := values + [v.value];
    v := ReadField(e, Slot(block, INDEX_LINEAR_C, F32));
    if v.Failure? { return Failure(v.error); }
    values := values + [v.value];
    v := ReadField(e, Slot(block, INDEX_ALPHA_LOW, F32));
    if v.Failure? { return Failure(v.error); }
    values := values + [v.value];
    v := ReadField(e, Slot(block, INDEX_ALPHA_HIGH, F32));
    if v.Failure? { return Failure(v.error); }
    values := values + [v.value];
    v := ReadField(e, Slot(block, INDEX_BETA_A, F32));
    if v.Failure? { return Failure(v.error); }
    values := values + [v.value];
    v := ReadField(e, Slot(block, INDEX_BETA_O, F32));
    if v.Failure? { return Failure(v.error); }
    values := values + [v.value];
    v := ReadField(e, Slot(block, INDEX_T_CAL, F32));
    if v.Failure? { return Failure(v.error); }
    r := Success(values + [v.value]);
  }

  /** The common block's seven reads, as `retrieve_calib` issues them. */
  method RetrieveCommon(e: Engine) returns (r: Result<seq<Value>, Fault>)
    modifies e.port, e.table
    ensures Outcome(e.Now(), r) == CommonReads(old(e.Now()), e.dialect)
  {
    var values: seq<Value> := [];
    var v := ReadField(e, Slot(COMMON_BLOCK, INDEX_NDIR_SERIAL, U32));
    if v.Failure? { return Failure(v.error); }
    values := values + [v.value];
    v := ReadField(e, Slot(COMMON_BLOCK, INDEX_BOARD_SERIAL, U32));
    if v.Failure? { return Failure(v.error); }
    values := values + [v.value];
    v := ReadField(e, Slot(COMMON_BLOCK, INDEX_SELECTED_RANGE, U16));
    if v.Failure? { return Failure(v.error); }
    values := values + [v.value];
    v := ReadField(e, Slot(COMMON_BLOCK, INDEX_LAMP_VOLTAGE, F32));
    if v.Failure? { return Failure(v.error); }
    values := values + [v.value];
    v := ReadField(e, Slot(COMMON_BLOCK, INDEX_LAMP_PERIOD, U16));
    if v.Failure? { return Failure(v.error); }
    values := values + [v.value];
    v := ReadField(e, Slot(COMMON_BLOCK, INDEX_SAMPLE_START, U16));
    if v.Failure? { return Failure(v.error); }
    values := values + [v.value];
    v := ReadField(e, Slot(COMMON_BLOCK, INDEX_SAMPLE_END, U16));
    if v.Failure? { return Failure(v.error); }
    r := Success(values + [v.value]);
  }

  /** The five range blocks, in order. */
  method RetrieveRanges(e: Engine) returns (r: Result<seq<Option<RangeCalib>>, Fault>)
    modifies e.port, e.table
    ensures Outcome(e.Now(), r) == RangesRead(old(e.Now()), e.dialect)
  {
    var ranges: seq<Option<RangeCalib>> := [];
    var range := RetrieveRange(e, RANGE_IAQ);
    if range.Failure? { return Failure(range.error); }
    ranges := ranges + [range.value];
    range := RetrieveRange(e, RANGE_SAFETY);
    if range.Failure? { return Failure(range.error); }
    ranges := ranges + [range.value];
    range := RetrieveRange(e, RANGE_COMBUSTION);
    if range.Failure? { return Failure(range.error); }
    ranges := ranges + [range.value];
    range := RetrieveRange(e, RANGE_INDUSTRIAL);
    if range.Failure? { return Failure(range.error); }
    ranges := ranges + [range.value];
    range := RetrieveRange(e, RANGE_CUSTOM);
    if range.Failure? { return Failure(range.error); }
    r := Success(ranges + [range.value]);
  }

  /** The body of `retrieve_calib`, run while the lock is held. */
  method RetrieveHeld(e: Engine) returns (r: Result<Calib, Fault>)
    modifies e.port, e.table
    ensures Outcome(e.Now(), r) == RetrieveSpec(old(e.Now()), e.dialect)
  {
    var common := RetrieveCommon(e);
    if common.Failure? {
      return Failure(common.error);
    }
    var ranges := RetrieveRanges(e);
    if ranges.Failure? {
      return Failure(ranges.error);
    }
    r := Success(CalibOf(common.value, ranges.value));
  }

  /** `retrieve_calib`: the retrieve under the host lock, which is released on every path. */
  method RetrieveCalib(e: Engine) returns (r: Result<Calib, Fault>)
    modifies e.port, e.table, e.lock
    ensures Outcome(e.Now(), r) == Guard(e.lock.contended, old(e.Now()), RetrieveSpec(old(e.Now()), e.dialect))
    ensures !e.lock.held && e.lock.releases == old(e.lock.releases) + 1
  {
    var ok := e.lock.Obtain();
    if ok {
      r := RetrieveHeld(e);
    } else {
      r := Failure(LockTimeout);
    }
    e.lock.Release();
  }
}
