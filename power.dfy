/**
 * Switching the sensor's supply through the `ndir_power` line of the board's
 * IO object. The newer drivers switch only when the line is not already at
 * the "on" level and wait the boot delay after an actual switch-on; the
 * NDIR driver drives the line and waits on every call; the legacy driver
 * drives it and never waits.
 */
module Power {
  import opened Bus

  /** What a power operation observes and changes: the line's level, and the trace its boot delay is logged to. */
  datatype Supply = Supply(level: bool, link: Link)

  /** The newer drivers' `power_on`: nothing when the line is already at `on`, else drive it there and wait `boot`. */
  function SwitchOn(on: bool, s: Supply, boot: nat): (r: Supply)
    ensures r.level == on && r.link.incoming == s.link.incoming
  {
    if s.level == on then s else Supply(on, Log(s.link, Slept(boot)))
  }

  /** The newer drivers' `power_off`: nothing when the line is already off, else drive it to the other level. */
  function SwitchOff(on: bool, s: Supply): (r: Supply)
    ensures r.level == !on && r.link == s.link
  {
    if s.level != on then s else Supply(!on, s.link)
  }

  /** The NDIR driver's `power_on`: drive LOW and wait `boot`, whatever the line was. */
  function ForceOn(s: Supply, boot: nat): (r: Supply)
    ensures !r.level && r.link.incoming == s.link.incoming
  {
    Supply(false, Log(s.link, Slept(boot)))
  }

  /** The NDIR driver's `power_off`: drive HIGH. */
  function ForceOff(s: Supply): (r: Supply)
    ensures r.level && r.link == s.link
  {
    Supply(true, s.link)
  }

  /** The boot delays a trace holds. */
  function Boots(trace: seq<Event>, boot: nat): (n: nat)
    ensures n <= |trace|
  {
    if trace == [] then 0
    else Boots(trace[..|trace| - 1], boot) + (if trace[|trace| - 1] == Slept(boot) then 1 else 0)
  }

  lemma {:induction false} BootsAppend(a: seq<Event>, b: seq<Event>, boot: nat)
    ensures Boots(a + b, boot) == Boots(a, boot) + Boots(b, boot)
    decreases |b|
  {
    if b == [] {
      assert a + b == a;
    } else {
      assert (a + b)[..|a + b| - 1] == a + b[..|b| - 1];
      BootsAppend(a, b[..|b| - 1], boot);
    }
  }

  /**
   * Switching on waits the boot delay exactly once when the line was off and
   * not at all when it was already on; nothing else is logged.
   */
  lemma BootOnlyOnSwitch(on: bool, s: Supply, boot: nat)
    ensures var t := SwitchOn(on, s, boot).link.trace;
      s.link.trace <= t && |t| <= |s.link.trace| + 1 &&
      Boots(t, boot) == Boots(s.link.trace, boot) + (if s.level == on then 0 else 1)
  {
    if s.level != on {
      BootsAppend(s.link.trace, [Slept(boot)], boot);
      assert [Slept(boot)][..0] == [];
    }
  }

  /** `power_on` twice is `power_on` once: the second call finds the line on and does nothing. */
  lemma SwitchOnIdempotent(on: bool, s: Supply, boot: nat)
    ensures SwitchOn(on, SwitchOn(on, s, boot), boot) == SwitchOn(on, s, boot)
  {
  }

  /** `power_off` twice is `power_off` once. */
  lemma SwitchOffIdempotent(on: bool, s: Supply)
    ensures SwitchOff(on, SwitchOff(on, s)) == SwitchOff(on, s)
  {
  }

  /** Off then on always boots once, whatever the line was: the sequence a power cycle relies on. */
  lemma CycleBootsOnce(on: bool, s: Supply, boot: nat)
    ensures var r := SwitchOn(on, SwitchOff(on, s), boot);
      r.level == on && r.link.trace == s.link.trace + [Slept(boot)]
  {
  }

  /** The NDIR driver's `power_on` is not idempotent: every call waits the boot delay again. */
  lemma ForceOnBootsEveryTime(s: Supply, boot: nat)
    ensures var once := ForceOn(s, boot);
      var twice := ForceOn(once, boot);
      Boots(once.link.trace, boot) == Boots(s.link.trace, boot) + 1 &&
      Boots(twice.link.trace, boot) == Boots(s.link.trace, boot) + 2 &&
      twice != once
  {
    var once := ForceOn(s, boot);
    BootsAppend(s.link.trace, [Slept(boot)], boot);
    BootsAppend(once.link.trace, [Slept(boot)], boot);
    assert [Slept(boot)][..0] == [];
    assert |ForceOn(once, boot).link.trace| == |once.link.trace| + 1;
  }
}
