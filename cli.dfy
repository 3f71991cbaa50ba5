/**
 * The option checks of the command-line handlers (src/scs_ndir/cmd/). Each
 * handler's parsed options are a record of what was given; `is_valid` and
 * the derived properties are functions of that record. Parsing argv itself
 * is not part of this model: an option that was not given is `None`, a flag
 * that was not given is `false`, and a default the parser fills in is
 * applied by the `...Given` constructors.
 */
module Cli {
  import opened Wrappers

  // ---------------------------------------------------------------------------------------------
  // the interval and sample count shared by the sampler, pressure and measure handlers

  /** `--interval` in seconds and `--samples`, as given. */
  datatype Timing = Timing(interval: Option<real>, samples: Option<int>)

  /** The `interval` property: the given interval, or 1.0 when none was given. */
  function Interval(t: Timing): (r: real)
    ensures t.interval.None? ==> r == 1.0
    ensures t.interval.Some? ==> r == t.interval.value
  {
    if t.interval.None? then 1.0 else t.interval.value
  }

  /** The `samples` property: one sample when no interval was given, else the given count, which may be absent. */
  function Samples(t: Timing): (r: Option<int>)
    ensures t.interval.None? ==> r == Some(1)
    ensures t.interval.Some? ==> r == t.samples
  {
    if t.interval.None? then Some(1) else t.samples
  }

  /** A sample count given without an interval is refused by all three handlers. */
  predicate SamplesNeedInterval(t: Timing)
  {
    !(t.samples.Some? && t.interval.None?)
  }

  /**
   * Where the count is allowed, it is never overridden: either it was given
   * together with an interval and is used as given, or nothing was given and
   * one sample is taken.
   */
  lemma SamplesKeptWhenAllowed(t: Timing)
    requires SamplesNeedInterval(t)
    ensures t.samples.Some? ==> Samples(t) == t.samples
    ensures t.samples.None? ==> Samples(t) == if t.interval.None? then Some(1) else None
  {
  }

  // ---------------------------------------------------------------------------------------------
  // ndir_recorder

  /** `-i INTERVAL` in milliseconds, `-n SAMPLES` and `-d DEFERRAL` in milliseconds. */
  datatype RecorderOptions = RecorderOptions(interval: Option<int>, samples: Option<int>, deferral: int)

  /** The deferral the parser supplies when `-d` is not given. */
  const DEFAULT_DEFERRAL: int := 0

  function RecorderGiven(interval: Option<int>, samples: Option<int>, deferral: Option<int>): (o: RecorderOptions)
    ensures deferral.None? ==> o.deferral == DEFAULT_DEFERRAL
  {
    RecorderOptions(interval, samples, if deferral.None? then DEFAULT_DEFERRAL else deferral.value)
  }

  /** `CmdNDIRRecorder.is_valid`, in the order of its checks. */
  function RecorderIsValid(o: RecorderOptions): bool
  {
    if o.interval.None? || o.samples.None? then false
    else if o.interval.value < 1 then false
    else if o.samples.value < 1 then false
    else if o.deferral < 0 || o.deferral > 999 then false
    else true
  }

  /** The recorder accepts exactly a positive interval and count and a deferral of 0 to 999 milliseconds. */
  lemma RecorderValidExactly(o: RecorderOptions)
    ensures RecorderIsValid(o) <==>
      o.interval.Some? && o.samples.Some? && o.interval.value >= 1 && o.samples.value >= 1 && 0 <= o.deferral <= 999
  {
  }

  /** Without `-d`, the default deferral always passes: only the interval and count decide. */
  lemma RecorderDefaultDeferral(interval: int, samples: int)
    ensures RecorderIsValid(RecorderGiven(Some(interval), Some(samples), None)) <==> interval >= 1 && samples >= 1
  {
  }

  // ---------------------------------------------------------------------------------------------
  // ndir_sampler

  /** `-m MODE`, `-w`, and the interval and count. */
  datatype SamplerOptions = SamplerOptions(mode: Option<int>, window: bool, timing: Timing)

  /** How many of the mutually exclusive `-m`, `-w` and `-i` were given. */
  function SamplerChoices(o: SamplerOptions): (n: nat)
    ensures n <= 3
    ensures n == 0 <==> o.mode.None? && !o.window && o.timing.interval.None?
  {
    (if o.mode.Some? then 1 else 0) + (if o.window then 1 else 0) + (if o.timing.interval.Some? then 1 else 0)
  }

  /** `CmdNDIRSampler.is_valid`. */
  function SamplerIsValid(o: SamplerOptions): bool
  {
    if SamplerChoices(o) > 1 then false
    else if o.timing.samples.Some? && o.timing.interval.None? then false
    else true
  }

  /** The sampler accepts at most one of mode, window and interval, and a count only with an interval. */
  lemma SamplerValidExactly(o: SamplerOptions)
    ensures SamplerIsValid(o) <==>
      !(o.mode.Some? && o.window) && !(o.mode.Some? && o.timing.interval.Some?) && !(o.window && o.timing.interval.Some?) &&
      SamplesNeedInterval(o.timing)
  {
  }

  /** A valid mode or window request takes one sample at the default interval. */
  lemma SamplerModeOrWindowSamplesOnce(o: SamplerOptions)
    requires SamplerIsValid(o) && (o.mode.Some? || o.window)
    ensures Interval(o.timing) == 1.0 && Samples(o.timing) == Some(1)
  {
  }

  // ---------------------------------------------------------------------------------------------
  // ndir_run_mode

  /** `CmdNDIRRunMode.is_valid` over `-s` and `-c`, both false unless given. */
  function RunModeIsValid(single: bool, continuous: bool): bool
  {
    if single && continuous then false
    else if !single && !continuous then false
    else true
  }

  /** Exactly one of single-shot and continuous must be asked for; with neither given, the defaults are refused. */
  lemma RunModeValidExactly(single: bool, continuous: bool)
    ensures RunModeIsValid(single, continuous) <==> single != continuous
    ensures !RunModeIsValid(false, false)
  {
  }

  // ---------------------------------------------------------------------------------------------
  // ndir_lamp

  /** `-l LEVEL` and `-r RUN`. */
  datatype LampOptions = LampOptions(level: Option<int>, run: Option<int>)

  /** `CmdNDIRLamp.is_valid`. */
  function LampIsValid(o: LampOptions): bool
  {
    if o.level.None? && o.run.None? then false
    else if o.run.Some? && o.run.value != 0 && o.run.value != 1 then false
    else true
  }

  /**
   * The lamp handler needs a level or a run flag; any level given alone
   * passes, and a run flag passes exactly when it is 0 or 1, with or
   * without a level.
   */
  lemma LampValidExactly(o: LampOptions)
    ensures o.run.None? ==> (LampIsValid(o) <==> o.level.Some?)
    ensures o.run.Some? ==> (LampIsValid(o) <==> o.run.value == 0 || o.run.value == 1)
  {
  }

  // ---------------------------------------------------------------------------------------------
  // ndir_calib

  /** `-d`, `-s PATH VALUE` and `-r`. */
  datatype CalibOptions = CalibOptions(loadDefault: bool, assignment: Option<(string, string)>, restart: bool)

  /** How many of the mutually exclusive `-d`, `-s` and `-r` were given. */
  function CalibChoices(o: CalibOptions): (n: nat)
    ensures n <= 3
    ensures n == 0 <==> !o.loadDefault && o.assignment.None? && !o.restart
  {
    (if o.loadDefault then 1 else 0) + (if o.assignment.Some? then 1 else 0) + (if o.restart then 1 else 0)
  }

  /** `CmdNDIRCalib.is_valid`. */
  function CalibIsValid(o: CalibOptions): bool
  {
    CalibChoices(o) <= 1
  }

  /** `CmdNDIRCalib.set()`. */
  function CalibSet(o: CalibOptions): bool
  {
    o.assignment.Some?
  }

  /** The `path` property: the first half of `-s`, or nothing. */
  function CalibPath(o: CalibOptions): Option<string>
  {
    if CalibSet(o) then Some(o.assignment.value.0) else None
  }

  /** The `value` property: the second half of `-s`, or nothing. */
  function CalibValue(o: CalibOptions): Option<string>
  {
    if CalibSet(o) then Some(o.assignment.value.1) else None
  }

  /**
   * The calibration handler accepts at most one of its three actions, and
   * none at all (a plain report); a valid `-s` comes with neither of the
   * others.
   */
  lemma CalibValidExactly(o: CalibOptions)
    ensures CalibIsValid(o) <==>
      !(o.loadDefault && o.assignment.Some?) && !(o.loadDefault && o.restart) && !(o.assignment.Some? && o.restart)
    ensures CalibIsValid(CalibOptions(false, None, false))
    ensures CalibIsValid(o) && CalibSet(o) ==> !o.loadDefault && !o.restart
  {
  }

  /** `path` and `value` are present exactly when `-s` was given, and then are its two parts in order. */
  lemma CalibPathAndValue(o: CalibOptions)
    ensures CalibPath(o).Some? <==> CalibSet(o)
    ensures CalibValue(o).Some? <==> CalibSet(o)
    ensures CalibSet(o) ==> (CalibPath(o).value, CalibValue(o).value) == o.assignment.value
  {
  }

  // ---------------------------------------------------------------------------------------------
  // ndir_conf

  /** `-m MODEL`, `-t AVERAGING_TALLY` and `-d`. */
  datatype ConfOptions = ConfOptions(model: Option<string>, tally: Option<int>, delete: bool)

  /** `CmdNDIRConf.is_valid`. */
  function ConfIsValid(o: ConfOptions): bool
  {
    !(o.model.Some? && o.delete)
  }

  /** `CmdNDIRConf.is_complete`. */
  function ConfIsComplete(o: ConfOptions): bool
  {
    !(o.model.None? || o.tally.None?)
  }

  /** `CmdNDIRConf.set()`. */
  function ConfSet(o: ConfOptions): bool
  {
    o.model.Some? || o.tally.Some?
  }

  /**
   * Only a model together with a delete is refused, so a tally with a delete
   * passes; a complete configuration is always a setting one, and a valid
   * delete never brings a complete configuration with it.
   */
  lemma ConfRules(o: ConfOptions)
    ensures !ConfIsValid(o) <==> o.model.Some? && o.delete
    ensures ConfIsComplete(o) <==> o.model.Some? && o.tally.Some?
    ensures ConfSet(o) <==> o.model.Some? || o.tally.Some?
    ensures ConfIsComplete(o) ==> ConfSet(o)
    ensures ConfIsValid(o) && o.delete ==> !ConfIsComplete(o)
    ensures o.model.None? ==> ConfIsValid(o)
  {
  }

  // ---------------------------------------------------------------------------------------------
  // ndir_pressure and ndir_measure

  /** `CmdNDIRPressure.is_valid`. */
  function PressureIsValid(t: Timing): bool
  {
    if t.samples.Some? && t.interval.None? then false else true
  }

  /** The pressure handler refuses exactly a count without an interval; giving neither is valid. */
  lemma PressureValidExactly(t: Timing)
    ensures PressureIsValid(t) <==> SamplesNeedInterval(t)
    ensures PressureIsValid(Timing(None, None))
  {
  }

  /** The shortest interval the measure handler accepts, 0.01 seconds. */
  const MIN_INTERVAL: real := 0.01

  /** `CmdNDIRMeasure.is_valid`: the bound applies to the interval as the `interval` property reports it. */
  function MeasureIsValid(t: Timing): bool
  {
    if t.interval.None? && t.samples.Some? then false
    else if Interval(t) < MIN_INTERVAL then false
    else true
  }

  /**
   * The measure handler refuses a count without an interval and an interval
   * under 0.01 seconds and nothing else; with no interval the default 1.0
   * passes the bound, so no options at all measure once a second, once.
   */
  lemma MeasureValidExactly(t: Timing)
    ensures MeasureIsValid(t) <==> SamplesNeedInterval(t) && (t.interval.Some? ==> t.interval.value >= MIN_INTERVAL)
    ensures t.interval.None? && t.samples.None? ==> MeasureIsValid(t) && Interval(t) == 1.0 && Samples(t) == Some(1)
  {
  }
}
