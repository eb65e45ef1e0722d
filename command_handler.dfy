/** The command handler: the scope's configuration state (trigger settings,
    sample rate, running flag), updated by commands from the browser, with a
    status record echoed back after each one.

    The conversions from the command's float payloads to integers (volts to
    ADC counts, time per division to a sample rate) are taken as the integer
    results of those conversions. Calls into the capture driver are returned
    as an `Effect` instead of being made. */
module CommandHandler {
  import opened Fixed
  import opened Trigger

  const MIN_RATE_HZ: int := 1000
  const MAX_RATE_HZ: int := 500000
  const INIT_RATE_HZ: int := 100000
  const INIT_LEVEL: int := 1638
  const INIT_HYSTERESIS: int := 200

  /** A command as the browser sends it; each case carries its payload.
      `SetTriggerLevel.counts` is the 16-bit conversion of
      volts * 4095 / 3.3, `SetTimebase.neededRate` the 32-bit conversion of
      256 / (seconds per division * 10). `Unknown` is any other type code. */
  datatype Command =
    | SetTriggerMode(mode: TriggerMode)
    | SetTriggerEdge(edge: TriggerEdge)
    | SetTriggerLevel(counts: int)
    | SetTimebase(secondsPerDiv: real, neededRate: int)
    | VerticalScale
    | SetSampleRate(hz: int)
    | RunStop(run: bool)
    | QueryStatus
    | Unknown(code: int)

  predicate CommandWf(c: Command)
  {
    match c
    case SetTriggerLevel(counts) => IsU16(counts)
    case SetTimebase(_, rate) => IsU32(rate)
    case SetSampleRate(hz) => IsU32(hz)
    case _ => true
  }

  /** The status record written back. */
  datatype Status = Status(success: bool, config: TriggerConfig, sampleRate: int, running: bool)

  /** What `memset` leaves: every field zero, every enumeration at its first value. */
  function ZeroStatus(): Status
  {
    Status(false, TriggerConfig(ModeAuto, Rising, 0, 0, 0.0, 0.0, SmoothMinMax), 0, false)
  }

  /** A call into the capture driver. */
  datatype Effect = NoEffect | SetDriverRate(hz: int) | StartCapture | StopCapture

  /** The handler's static state. */
  datatype Config = Config(trigger: TriggerConfig, sampleRate: int, running: bool)
  {
    predicate Valid() { ConfigWf(trigger) && IsU32(sampleRate) }
  }

  /** The stored trigger level is a 12-bit code. */
  predicate LevelInRange(h: Config) { h.trigger.levelCounts <= MAX_CODE }

  /** Initialisation: the trigger defaults with level 1638 and hysteresis 200,
      100 kHz, not running. */
  function Initialized(h: Config): (q: Config)
    ensures q.Valid() && LevelInRange(q)
    ensures q.trigger.levelCounts == INIT_LEVEL && q.trigger.hysteresis == INIT_HYSTERESIS
    ensures q.trigger.mode == ModeAuto && q.trigger.edge == Rising
    ensures q.trigger.pretriggerFrac == DefaultConfig().pretriggerFrac
    ensures q.sampleRate == INIT_RATE_HZ && !q.running
  {
    Config(DefaultConfig().(levelCounts := INIT_LEVEL, hysteresis := INIT_HYSTERESIS), INIT_RATE_HZ, false)
  }

  /** The status a handled command echoes: success and the current state. */
  function Echo(h: Config): Status
  {
    Status(true, h.trigger, h.sampleRate, h.running)
  }

  /** Clamp a computed sample rate into the converter's range. */
  function ClampRate(r: int): (q: int)
    ensures MIN_RATE_HZ <= q <= MAX_RATE_HZ
    ensures MIN_RATE_HZ <= r <= MAX_RATE_HZ ==> q == r
    ensures r < MIN_RATE_HZ ==> q == MIN_RATE_HZ
    ensures r > MAX_RATE_HZ ==> q == MAX_RATE_HZ
  {
    if r < MIN_RATE_HZ then MIN_RATE_HZ else if r > MAX_RATE_HZ then MAX_RATE_HZ else r
  }

  /** A command is handled unless its type has no case. */
  predicate Handled(c: Command) { !c.VerticalScale? && !c.Unknown? }

  /** Outcome of one command: the return value, the status written (`None`
      when nothing is written), the driver call made, and the new state. */
  datatype Outcome = Outcome(ok: bool, status: Option<Status>, effect: Effect, state: Config)

  function Executed(h: Config, cmd: Option<Command>, statusPresent: bool): (o: Outcome)
    requires h.Valid() && (cmd.Some? ==> CommandWf(cmd.value))
    ensures o.state.Valid()
    // NULL arguments: false, nothing written, nothing changed.
    ensures cmd.None? || !statusPresent ==> o == Outcome(false, None, NoEffect, h)
    // Unknown types: false, a zeroed status with success false, nothing changed.
    ensures cmd.Some? && statusPresent && !Handled(cmd.value) ==>
              o == Outcome(false, Some(ZeroStatus()), NoEffect, h)
    // Handled types: true, and the status echoes the state after the command.
    ensures cmd.Some? && statusPresent && Handled(cmd.value) ==>
              o.ok && o.status == Some(Echo(o.state))
    ensures LevelInRange(h) ==> LevelInRange(o.state)
  {
    if cmd.None? || !statusPresent then Outcome(false, None, NoEffect, h)
    else
      var c := cmd.value;
      if !Handled(c) then Outcome(false, Some(ZeroStatus()), NoEffect, h)
      else
        var (q, e) := Apply(h, c);
        Outcome(true, Some(Echo(q)), e, q)
  }

  /** The state change and driver call of one handled command. */
  function Apply(h: Config, c: Command): (r: (Config, Effect))
    requires h.Valid() && CommandWf(c) && Handled(c)
    ensures r.0.Valid()
    ensures LevelInRange(h) ==> LevelInRange(r.0)
    // Only the rate and run/stop commands call the driver.
    ensures r.1 != NoEffect <==> c.SetTimebase? || c.SetSampleRate? || c.RunStop?
    // Only the trigger commands touch the trigger configuration, only the
    // rate commands the rate, only run/stop the running flag.
    ensures r.0.trigger != h.trigger ==> c.SetTriggerMode? || c.SetTriggerEdge? || c.SetTriggerLevel? || c.SetTimebase?
    ensures r.0.sampleRate != h.sampleRate ==> c.SetTimebase? || c.SetSampleRate?
    ensures r.0.running != h.running ==> c.RunStop?
  {
    match c
    case SetTriggerMode(m) => (h.(trigger := h.trigger.(mode := m)), NoEffect)
    case SetTriggerEdge(e) => (h.(trigger := h.trigger.(edge := e)), NoEffect)
    case SetTriggerLevel(counts) =>
      var level := if counts > MAX_CODE then MAX_CODE else counts;
      (h.(trigger := h.trigger.(levelCounts := level)), NoEffect)
    case SetTimebase(secondsPerDiv, neededRate) =>
      var rate := ClampRate(neededRate);
      (h.(trigger := h.trigger.(timePerDivMs := secondsPerDiv * 1000.0), sampleRate := rate), SetDriverRate(rate))
    case SetSampleRate(hz) => (h.(sampleRate := hz), SetDriverRate(hz))
    case RunStop(run) => (h.(running := run), if run then StartCapture else StopCapture)
    case QueryStatus => (h, NoEffect)
  }

  /** The status query: success, the current configuration, and the
      driver's own running flag (not the handler's). NULL is a no-op. */
  function StatusOf(h: Config, statusPresent: bool, driverRunning: bool): (s: Option<Status>)
    ensures s.Some? <==> statusPresent
    ensures s.Some? ==> s.value.success && s.value.config == h.trigger
                        && s.value.sampleRate == h.sampleRate && s.value.running == driverRunning
  {
    if statusPresent then Some(Status(true, h.trigger, h.sampleRate, driverRunning)) else None
  }

  // ---- Properties of the command handler ----

  /** The mode and edge commands change that one field, make no driver call,
      and echo the new state. */
  lemma ModeAndEdgeAreLocal(h: Config, m: TriggerMode, e: TriggerEdge)
    requires h.Valid()
    ensures var o := Executed(h, Some(SetTriggerMode(m)), true);
            var q := h.(trigger := h.trigger.(mode := m));
            o == Outcome(true, Some(Echo(q)), NoEffect, q)
    ensures var o := Executed(h, Some(SetTriggerEdge(e)), true);
            var q := h.(trigger := h.trigger.(edge := e));
            o == Outcome(true, Some(Echo(q)), NoEffect, q)
  {
  }

  /** The stored level is the requested count, capped at 4095; nothing else
      changes and the driver is not called. */
  lemma LevelClamped(h: Config, counts: int)
    requires h.Valid() && IsU16(counts)
    ensures var o := Executed(h, Some(SetTriggerLevel(counts)), true);
            var q := h.(trigger := h.trigger.(levelCounts := Min(counts, MAX_CODE)));
            o == Outcome(true, Some(Echo(q)), NoEffect, q) && q.trigger.levelCounts <= MAX_CODE
  {
  }

  /** The timebase command stores the time per division in milliseconds and
      stores and passes to the driver the clamped rate; a rate inside
      [1000, 500000] is kept, 999 Hz becomes 1000 Hz and 10 MHz becomes
      500 kHz. Nothing else changes. */
  lemma TimebaseRateClamped(h: Config, secondsPerDiv: real, neededRate: int)
    requires h.Valid() && IsU32(neededRate)
    ensures var o := Executed(h, Some(SetTimebase(secondsPerDiv, neededRate)), true);
            var q := h.(trigger := h.trigger.(timePerDivMs := secondsPerDiv * 1000.0), sampleRate := ClampRate(neededRate));
            o == Outcome(true, Some(Echo(q)), SetDriverRate(ClampRate(neededRate)), q)
    ensures var o := Executed(h, Some(SetTimebase(secondsPerDiv, neededRate)), true);
            && MIN_RATE_HZ <= o.state.sampleRate <= MAX_RATE_HZ
            && (MIN_RATE_HZ <= neededRate <= MAX_RATE_HZ ==> o.state.sampleRate == neededRate)
            && (neededRate == 999 ==> o.state.sampleRate == 1000)
            && (neededRate == 10_000_000 ==> o.state.sampleRate == 500_000)
  {
  }

  /** The sample-rate command stores and passes on its value unclamped. */
  lemma SampleRateUnclamped(h: Config, hz: int)
    requires h.Valid() && IsU32(hz)
    ensures var o := Executed(h, Some(SetSampleRate(hz)), true);
            o.ok && o.state.sampleRate == hz && o.effect == SetDriverRate(hz)
            && o.state.trigger == h.trigger && o.state.running == h.running
  {
  }

  /** Run/stop records the flag and starts or stops capture to match; the
      trigger configuration and the rate are unchanged. */
  lemma RunStopMatchesDriver(h: Config, run: bool)
    requires h.Valid()
    ensures var o := Executed(h, Some(RunStop(run)), true);
            o.ok && o.status == Some(Echo(o.state))
            && o.state.running == run && (o.effect == StartCapture <==> run) && (o.effect == StopCapture <==> !run)
            && o.state.trigger == h.trigger && o.state.sampleRate == h.sampleRate
  {
  }

  /** The status command echoes the state and changes nothing. */
  lemma QueryStatusChangesNothing(h: Config)
    requires h.Valid()
    ensures Executed(h, Some(QueryStatus), true) == Outcome(true, Some(Echo(h)), NoEffect, h)
  {
  }

  /** The vertical-scale command has no case: it fails like an unknown type. */
  lemma VerticalScaleRejected(h: Config)
    requires h.Valid()
    ensures var o := Executed(h, Some(VerticalScale), true);
            !o.ok && o.status == Some(ZeroStatus()) && !o.status.value.success && o.state == h
  {
  }

  /** The handler's static variables. */
  class Handler {
    var trigger: TriggerConfig
    var sampleRate: int
    var running: bool

    ghost function Abs(): Config
      reads this
    {
      Config(trigger, sampleRate, running)
    }

    /** Static initialisation: a zeroed trigger configuration, 100 kHz, stopped. */
    constructor ()
      ensures Abs() == Config(ZeroStatus().config, INIT_RATE_HZ, false) && Abs().Valid()
    {
      trigger := ZeroStatus().config;
      sampleRate := INIT_RATE_HZ;
      running := false;
    }

    method Init()
      modifies this
      ensures Abs() == Initialized(old(Abs()))
    {
      var t := InitDefault(Some(trigger)).value;
      trigger := t.(levelCounts := INIT_LEVEL, hysteresis := INIT_HYSTERESIS);
      sampleRate := INIT_RATE_HZ;
      running := false;
    }

    method Execute(cmd: Option<Command>, statusPresent: bool) returns (ok: bool, status: Option<Status>, effect: Effect)
      requires Abs().Valid() && (cmd.Some? ==> CommandWf(cmd.value))
      modifies this
      ensures var o := Executed(old(Abs()), cmd, statusPresent);
              ok == o.ok && status == o.status && effect == o.effect && Abs() == o.state
    {
      if cmd.None? || !statusPresent {
        return false, None, NoEffect;
      }
      var s := ZeroStatus();
      s := s.(success := true);
      effect := NoEffect;
      match cmd.value {
        case SetTriggerMode(m) =>
          trigger := trigger.(mode := m);
        case SetTriggerEdge(e) =>
          trigger := trigger.(edge := e);
        case SetTriggerLevel(counts) =>
          trigger := trigger.(levelCounts := counts);
          if trigger.levelCounts > MAX_CODE {
            trigger := trigger.(levelCounts := MAX_CODE);
          }
        case SetTimebase(secondsPerDiv, neededRate) =>
          trigger := trigger.(timePerDivMs := secondsPerDiv * 1000.0);
          var rate := neededRate;
          if rate < MIN_RATE_HZ { rate := MIN_RATE_HZ; }
          if rate > MAX_RATE_HZ { rate := MAX_RATE_HZ; }
          sampleRate := rate;
          effect := SetDriverRate(sampleRate);
        case SetSampleRate(hz) =>
          sampleRate := hz;
          effect := SetDriverRate(sampleRate);
        case RunStop(run) =>
          running := run;
          effect := if running then StartCapture else StopCapture;
        case QueryStatus =>
        case VerticalScale =>
          s := s.(success := false);
          return false, Some(s), NoEffect;
        case Unknown(_) =>
          s := s.(success := false);
          return false, Some(s), NoEffect;
      }
      s := s.(config := trigger, sampleRate := sampleRate, running := running);
      return true, Some(s), effect;
    }

    /** `driverRunning` is what the capture driver reports. */
    method GetStatus(statusPresent: bool, driverRunning: bool) returns (status: Option<Status>)
      ensures status == StatusOf(Abs(), statusPresent, driverRunning)
    {
      if !statusPresent {
        return None;
      }
      var s := ZeroStatus();
      s := s.(success := true, config := trigger, sampleRate := sampleRate, running := driverRunning);
      return Some(s);
    }
  }
}
