/**
 * The command tables of the four SPI dialects. Each entry is a two-character
 * command with its response time, execution time and return count. Times are
 * whole microseconds; an execution time or return count of `None` is one the
 * table leaves to the caller.
 */
module Commands {
  import opened Wrappers
  import opened Bytes

  datatype Command = Command(name: string, responseTime: nat, executionTime: Option<nat>, returnCount: Option<int>)

  datatype Family = X1 | V1 | T1F1 | Ndir

  /** Why `find` fails: the name is not in the table (ValueError), or `init` never ran (the table is None). */
  datatype LookupError = Unrecognised(name: string) | Uninitialised

  /** An entry as the tables declare it: a two-character name, and a fixed non-negative return count unless its name is in `open`. */
  predicate EntryOk(c: Command, open: set<string>)
  {
    |c.name| == 2 &&
    (c.returnCount.None? <==> c.name in open) &&
    (c.returnCount.Some? ==> c.returnCount.value >= 0)
  }

  /** Every key names its own entry, and every entry is as the tables declare it. */
  predicate WellKeyed(m: map<string, Command>, open: set<string>)
  {
    forall k :: k in m ==> m[k].name == k && EntryOk(m[k], open)
  }

  /** The dictionary a literal with these entries builds, keyed by each entry's own name. */
  function Dict(entries: seq<Command>): (m: map<string, Command>)
  {
    if entries == [] then map[]
    else
      var last := entries[|entries| - 1];
      Dict(entries[..|entries| - 1])[last.name := last]
  }

  lemma {:induction false} DictEntries(entries: seq<Command>)
    ensures forall k :: k in Dict(entries) ==> Dict(entries)[k].name == k && Dict(entries)[k] in entries
    ensures forall c :: c in entries ==> c.name in Dict(entries)
  {
    if entries != [] {
      DictEntries(entries[..|entries| - 1]);
    }
  }

  lemma DictWellKeyed(entries: seq<Command>, open: set<string>)
    requires forall i :: 0 <= i < |entries| ==> EntryOk(entries[i], open)
    ensures WellKeyed(Dict(entries), open)
  {
    DictEntries(entries);
  }

  function X1Entries(): (s: seq<Command>)
    ensures |s| == 24
    ensures s[5].name == "wr" && s[5].executionTime == Some(2_500_000)
    ensures s[8].name == "cl" && s[8].executionTime == Some(2_200_000)
    ensures s[18].name == "sm" && s[18].executionTime == Some(2_000_000)
    ensures s[7].name == "cw" && s[7].responseTime == 4_000 && s[7].executionTime == Some(10_000)
  {
    [
      Command("vi", 1_000, Some(0), Some(40)),
      Command("vt", 1_000, Some(0), Some(11)),
      Command("up", 1_000, Some(0), Some(4)),
      Command("ws", 1_000, Some(0), Some(1)),
      Command("wc", 1_000, Some(0), Some(0)),
      Command("wr", 1_000, Some(2_500_000), Some(0)),
      Command("cr", 2_000, Some(0), None),
      Command("cw", 4_000, Some(10_000), Some(0)),
      Command("cl", 10_000, Some(2_200_000), Some(0)),
      Command("lr", 1_000, Some(0), Some(0)),
      Command("ll", 1_000, Some(0), Some(0)),
      Command("ir", 1_000, Some(0), Some(2)),
      Command("iv", 1_000, Some(0), Some(4)),
      Command("mc", 1_000, Some(1_000_000), Some(0)),
      Command("mr", 1_000, Some(0), Some(6)),
      Command("mv", 1_000, Some(0), Some(12)),
      Command("rs", 1_000, Some(1_100_000), Some(0)),
      Command("rp", 1_000, Some(0), None),
      Command("sm", 1_000, Some(2_000_000), Some(0)),
      Command("sr", 1_000, Some(0), Some(6)),
      Command("sv", 1_000, Some(0), Some(12)),
      Command("sg", 10_000, Some(0), Some(12)),
      Command("so", 1_000, Some(0), Some(8)),
      Command("sp", 1_000, Some(0), Some(4))
    ]
  }

  function V1Entries(): (s: seq<Command>)
    ensures |s| == 24
    ensures s[5].name == "wr" && s[5].executionTime == Some(2_500_000)
    ensures s[8].name == "cl" && s[8].executionTime == Some(2_200_000)
    ensures s[7].name == "cw" && s[7].responseTime == 2_000 && s[7].executionTime == Some(10_000)
  {
    [
      Command("vi", 1_000, Some(0), Some(40)),
      Command("vt", 1_000, Some(0), Some(11)),
      Command("up", 1_000, Some(0), Some(4)),
      Command("ws", 1_000, Some(0), Some(1)),
      Command("wc", 1_000, Some(0), Some(0)),
      Command("wr", 1_000, Some(2_500_000), Some(0)),
      Command("cr", 1_000, Some(0), None),
      Command("cw", 2_000, Some(10_000), Some(0)),
      Command("cl", 10_000, Some(2_200_000), Some(0)),
      Command("lr", 1_000, Some(0), Some(0)),
      Command("ll", 1_000, Some(0), Some(0)),
      Command("ir", 1_000, Some(0), Some(2)),
      Command("iv", 1_000, Some(0), Some(4)),
      Command("mc", 1_000, Some(1_000_000), Some(0)),
      Command("mr", 1_000, Some(0), Some(6)),
      Command("mv", 1_000, Some(0), Some(12)),
      Command("rs", 1_000, Some(1_100_000), Some(0)),
      Command("rp", 1_000, Some(0), None),
      Command("sm", 1_000, Some(2_200_000), Some(0)),
      Command("sr", 1_000, Some(0), Some(6)),
      Command("sv", 1_000, Some(0), Some(12)),
      Command("sg", 10_000, Some(0), Some(12)),
      Command("so", 1_000, Some(0), Some(8)),
      Command("sp", 1_000, Some(0), Some(4))
    ]
  }

  function T1F1Entries(): (s: seq<Command>)
    ensures |s| == 23
    ensures s[22].name == "sb" && s[22].returnCount == Some(4)
    ensures s[17].name == "sp" && s[17].returnCount == Some(0)
  {
    [
      Command("vi", 1_000, Some(0), Some(40)),
      Command("vt", 1_000, Some(0), Some(11)),
      Command("up", 1_000, Some(0), Some(4)),
      Command("ws", 1_000, Some(0), Some(1)),
      Command("wc", 1_000, Some(0), Some(0)),
      Command("wr", 1_000, Some(2_500_000), Some(0)),
      Command("cr", 2_000, Some(0), None),
      Command("cw", 4_000, Some(10_000), Some(0)),
      Command("cl", 10_000, Some(2_200_000), Some(0)),
      Command("lr", 1_000, Some(0), Some(0)),
      Command("ir", 1_000, Some(0), Some(2)),
      Command("iv", 1_000, Some(0), Some(4)),
      Command("mc", 1_000, Some(1_000_000), Some(0)),
      Command("mr", 1_000, Some(0), Some(6)),
      Command("mv", 1_000, Some(0), Some(12)),
      Command("rs", 1_000, None, Some(0)),
      Command("rp", 1_000, Some(0), None),
      Command("sp", 1_000, None, Some(0)),
      Command("sr", 1_000, Some(0), Some(6)),
      Command("sv", 1_000, Some(0), Some(12)),
      Command("sg", 10_000, Some(0), Some(12)),
      Command("so", 1_000, Some(0), Some(8)),
      Command("sb", 1_000, Some(0), Some(4))
    ]
  }

  function NdirEntries(): (s: seq<Command>)
    ensures |s| == 24
    ensures s[22].name == "sw" && s[22].returnCount == Some(600)
    ensures s[23].name == "sd" && s[23].returnCount == Some(4)
    ensures s[7].name == "ew" && s[7].responseTime == 5_000 && s[7].executionTime == Some(10_000)
    ensures s[8].name == "ez" && s[8].responseTime == 5_000 && s[8].executionTime == Some(10_000)
  {
    [
      Command("vi", 1_000, Some(0), Some(40)),
      Command("vt", 1_000, Some(0), Some(11)),
      Command("up", 1_000, Some(0), Some(4)),
      Command("ws", 1_000, Some(0), Some(1)),
      Command("wc", 1_000, Some(0), Some(0)),
      Command("wr", 1_000, Some(2_500_000), Some(0)),
      Command("er", 1_000, Some(0), None),
      Command("ew", 5_000, Some(10_000), Some(0)),
      Command("ez", 5_000, Some(10_000), Some(0)),
      Command("lr", 1_000, Some(0), Some(0)),
      Command("ll", 1_000, Some(0), Some(0)),
      Command("ir", 1_000, Some(0), Some(2)),
      Command("iv", 1_000, Some(0), Some(4)),
      Command("mc", 1_000, Some(1_000_000), Some(0)),
      Command("mr", 1_000, Some(0), Some(6)),
      Command("mv", 1_000, Some(0), Some(12)),
      Command("rs", 1_000, Some(2_200_000), Some(0)),
      Command("rp", 1_000, Some(0), None),
      Command("sm", 1_000, Some(2_200_000), Some(0)),
      Command("sr", 1_000, Some(0), Some(6)),
      Command("sv", 1_000, Some(0), Some(12)),
      Command("sg", 10_000, Some(0), Some(12)),
      Command("sw", 3_000, Some(0), Some(600)),
      Command("sd", 1_000, Some(0), Some(4))
    ]
  }

  /** The names `find` must leave to the caller to count. */
  function OpenNames(f: Family): set<string>
  {
    if f == Ndir then {"er", "rp"} else {"cr", "rp"}
  }

  predicate Declared(entries: seq<Command>, open: set<string>)
  {
    forall i :: 0 <= i < |entries| ==> EntryOk(entries[i], open)
  }

  lemma X1Declared()
    ensures Declared(X1Entries(), OpenNames(X1))
  {
  }

  lemma V1Declared()
    ensures Declared(V1Entries(), OpenNames(V1))
  {
  }

  lemma T1F1Declared()
    ensures Declared(T1F1Entries(), OpenNames(T1F1))
  {
  }

  lemma NdirDeclared()
    ensures Declared(NdirEntries(), OpenNames(Ndir))
  {
  }

  function Entries(f: Family): seq<Command>
  {
    match f
    case X1 => X1Entries()
    case V1 => V1Entries()
    case T1F1 => T1F1Entries()
    case Ndir => NdirEntries()
  }

  /** Every family declares its entries as EntryOk says. */
  lemma EntriesDeclared(f: Family)
    ensures Declared(Entries(f), OpenNames(f))
  {
    match f
    case X1 => X1Declared();
    case V1 => V1Declared();
    case T1F1 => T1F1Declared();
    case Ndir => NdirDeclared();
  }

  /** The table `init` installs for each family. */
  function Static(f: Family): (m: map<string, Command>)
  {
    Dict(Entries(f))
  }

  /** Every family's table is keyed by its entries' two-character names, and only the open names lack a return count. */
  lemma StaticWellKeyed(f: Family)
    ensures WellKeyed(Static(f), OpenNames(f))
  {
    EntriesDeclared(f);
    DictWellKeyed(Entries(f), OpenNames(f));
  }

  /**
   * The bytes sent for a command name: the code points of its first two
   * characters. `None` when the name is shorter than two characters (an
   * IndexError) or a code point does not fit in a byte (the SPI transfer
   * refuses it).
   */
  function NameBytes(name: string): (r: Option<seq<byte>>)
    ensures r.Some? <==> |name| >= 2 && name[0] as int < 0x100 && name[1] as int < 0x100
    ensures r.Some? ==> |r.value| == 2 && r.value[0] as char == name[0] && r.value[1] as char == name[1]
  {
    if |name| >= 2 && name[0] as int < 0x100 && name[1] as int < 0x100 then
      Some([name[0] as int, name[1] as int])
    else
      None
  }

  /** The inverse of NameBytes: two bytes read back as a two-character name. */
  function NameOf(bs: seq<byte>): (name: string)
    requires |bs| == 2
    ensures |name| == 2
  {
    [bs[0] as char, bs[1] as char]
  }

  lemma NameBytesRoundTrip(name: string, bs: seq<byte>)
    requires |name| == 2 && name[0] as int < 0x100 && name[1] as int < 0x100
    requires |bs| == 2
    ensures NameOf(NameBytes(name).value) == name
    ensures NameBytes(NameOf(bs)) == Some(bs)
  {
    var n := NameOf(bs);
    assert [n[0] as int, n[1] as int] == bs;
  }

  /**
   * `find`: the entry under `name`; a ValueError when the name is not in the
   * table, and a TypeError when `init` has not run.
   */
  function Lookup(commands: Option<map<string, Command>>, name: string): (r: Result<Command, LookupError>)
    ensures commands.None? ==> r == Failure(Uninitialised)
    ensures commands.Some? && name !in commands.value ==> r == Failure(Unrecognised(name))
    ensures commands.Some? && name in commands.value ==> r == Success(commands.value[name])
  {
    match commands
    case None => Failure(Uninitialised)
    case Some(m) => if name in m then Success(m[name]) else Failure(Unrecognised(name))
  }

  /**
   * The class-level command dictionary of one dialect. It is `None` until
   * `init` runs; `find` hands out the shared entry, so setting an entry's
   * return count is seen by every later `find`.
   */
  class CommandTable {
    const family: Family
    var commands: Option<map<string, Command>>

    constructor (family: Family)
      ensures this.family == family && commands == None
    {
      this.family := family;
      commands := None;
    }

    method Init()
      modifies this
      ensures commands == Some(Static(family))
    {
      commands := Some(Static(family));
    }

    /** The `return_count` setter applied to the entry `find(name)` returned. */
    method SetReturnCount(name: string, count: Option<int>)
      requires Lookup(commands, name).Success?
      modifies this
      ensures commands == Some(old(commands.value)[name := old(commands.value[name]).(returnCount := count)])
    {
      var m := commands.value;
      commands := Some(m[name := m[name].(returnCount := count)]);
    }
  }

  /** Once initialised, `find` succeeds exactly for the names of the family's table. */
  lemma FindAfterInit(t: CommandTable, name: string)
    requires t.commands == Some(Static(t.family))
    ensures Lookup(t.commands, name).Success? <==> exists c :: c in Entries(t.family) && c.name == name
    ensures Lookup(t.commands, name).Success? ==> Lookup(t.commands, name).value.name == name && |name| == 2
  {
    StaticWellKeyed(t.family);
    DictEntries(Entries(t.family));
    if Lookup(t.commands, name).Success? {
      assert Static(t.family)[name] in Entries(t.family);
    }
  }

  /** t1f1 has no lamp-level or sample-mode command: `find` rejects both. */
  lemma T1F1LacksLampLevel(t: CommandTable)
    requires t.family == T1F1 && t.commands == Some(Static(t.family))
    ensures Lookup(t.commands, "ll") == Failure(Unrecognised("ll"))
    ensures Lookup(t.commands, "sm") == Failure(Unrecognised("sm"))
  {
    T1F1Unnamed();
  }

  lemma T1F1Unnamed()
    ensures "ll" !in Static(T1F1) && "sm" !in Static(T1F1)
  {
    NotInT1F1("ll");
    NotInT1F1("sm");
  }

  lemma NotInT1F1(name: string)
    requires forall i :: 0 <= i < |T1F1Entries()| ==> T1F1Entries()[i].name != name
    ensures name !in Static(T1F1)
  {
    NotNamed(T1F1Entries(), name);
  }

  /** A name none of the entries carries is not a key of their dictionary. */
  lemma NotNamed(entries: seq<Command>, name: string)
    requires forall i :: 0 <= i < |entries| ==> entries[i].name != name
    ensures name !in Dict(entries)
  {
    if name in Dict(entries) {
      DictKeys(entries, name);
    }
  }

  /** Every key of the dictionary is the name of one of the entries. */
  lemma {:induction false} DictKeys(entries: seq<Command>, k: string)
    requires k in Dict(entries)
    ensures exists i :: 0 <= i < |entries| && entries[i].name == k
  {
    if entries != [] {
      var front := entries[..|entries| - 1];
      if k != entries[|entries| - 1].name {
        DictKeys(front, k);
        var i :| 0 <= i < |front| && front[i].name == k;
        assert entries[i].name == k;
      }
    }
  }

  /** t1f1 leaves the execution time of `rs` and `sp` to the caller, and of no other command. */
  lemma T1F1VariableTimes()
    ensures var s := T1F1Entries();
      forall i :: 0 <= i < |s| ==> (s[i].executionTime.None? <==> s[i].name == "rs" || s[i].name == "sp")
  {
    var s := T1F1Entries();
    assert forall i :: 0 <= i < |s| ==> (s[i].executionTime.None? <==> s[i].name == "rs" || s[i].name == "sp");
  }
}
