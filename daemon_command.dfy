/** The daemon controller: option validation, the stop test, the pause, and the
    main loop. The environment (clock, memory usage, signal delivery, the
    schedule's next-run time, and what the caller's iteration does) is an
    oracle `Env`; the loop is driven by fuel, since the source loops forever
    until a stop condition fires. */
module DaemonCommand {
  import opened Context

  datatype Result<T, E> = Ok(value: T) | Err(error: E)

  // ---------------------------------------------------------------------------
  // Validation (buildContext)
  // ---------------------------------------------------------------------------

  /** Option values as they arrive, already cast to integers; absent is None. */
  datatype RawOptions = RawOptions(
    pause: int,
    memory: int,                 // megabytes, -1 for no limit
    time: Option<int>,
    iterations: Option<int>,
    schedule: Option<string>)

  /** One error per validation step, in the order the steps are taken. */
  datatype ConfigError =
    | NegativePause
    | InvalidMemoryLimit
    | MemoryLimitAboveMaximum
    | InvalidTimeLimit
    | InvalidIterationsLimit
    | InvalidSchedule

  const BytesPerMegabyte: int := 1024 * 1024

  /** -1 stays -1 (no limit); any other value is converted to bytes. */
  function MemoryLimitBytes(megabytes: int): int
  {
    if megabytes == -1 then -1 else megabytes * BytesPerMegabyte
  }

  /** The requested memory limit, in megabytes, is "no limit" or positive. */
  predicate MemoryRequestValid(megabytes: int)
  {
    megabytes == -1 || megabytes > 0
  }

  predicate PositiveIfPresent(limit: Option<int>)
  {
    limit.None? || limit.value > 0
  }

  predicate ScheduleParses(schedule: Option<string>, parse: string -> Option<CronExpression>)
  {
    schedule.None? || parse(schedule.value).Some?
  }

  /** The invariants every validated configuration keeps. */
  predicate ValidConfig(cfg: Config, maxBytes: int)
  {
    && cfg.pause >= 0
    && (cfg.memoryLimit == -1 || cfg.memoryLimit > 0)
    && cfg.memoryLimit <= maxBytes
    && PositiveIfPresent(cfg.timeLimit)
    && PositiveIfPresent(cfg.iterationsLimit)
  }

  /** The byte-level test of the source rejects exactly the megabyte values
      0 and below -1. */
  lemma MemoryBytesRejected(megabytes: int)
    ensures (MemoryLimitBytes(megabytes) == 0 || MemoryLimitBytes(megabytes) < -1)
            <==> !MemoryRequestValid(megabytes)
  {
  }

  /** Validates the options and computes the constructor arguments of the
      context; `maxBytes` is the environment's memory maximum and `parse`
      the cron parser. */
  function BuildContext(opts: RawOptions, maxBytes: int, parse: string -> Option<CronExpression>)
    : (r: Result<Config, ConfigError>)
    ensures r == Err(NegativePause) <==> opts.pause < 0
    ensures r == Err(InvalidMemoryLimit) <==>
              opts.pause >= 0 && !MemoryRequestValid(opts.memory)
    ensures r == Err(MemoryLimitAboveMaximum) <==>
              opts.pause >= 0 && MemoryRequestValid(opts.memory)
              && MemoryLimitBytes(opts.memory) > maxBytes
    ensures r == Err(InvalidTimeLimit) <==>
              opts.pause >= 0 && MemoryRequestValid(opts.memory)
              && MemoryLimitBytes(opts.memory) <= maxBytes
              && !PositiveIfPresent(opts.time)
    ensures r == Err(InvalidIterationsLimit) <==>
              opts.pause >= 0 && MemoryRequestValid(opts.memory)
              && MemoryLimitBytes(opts.memory) <= maxBytes
              && PositiveIfPresent(opts.time) && !PositiveIfPresent(opts.iterations)
    ensures r.Ok? <==>
              opts.pause >= 0 && MemoryRequestValid(opts.memory)
              && MemoryLimitBytes(opts.memory) <= maxBytes
              && PositiveIfPresent(opts.time) && PositiveIfPresent(opts.iterations)
              && ScheduleParses(opts.schedule, parse)
    ensures r.Ok? ==> ValidConfig(r.value, maxBytes)
    ensures r.Ok? ==>
              && r.value.pause == opts.pause
              && r.value.memoryLimit == MemoryLimitBytes(opts.memory)
              && r.value.timeLimit == opts.time
              && r.value.iterationsLimit == opts.iterations
              && (opts.schedule.None? <==> r.value.schedule.None?)
              && (opts.schedule.Some? ==> r.value.schedule == parse(opts.schedule.value))
  {
    MemoryBytesRejected(opts.memory);
    var bytes := MemoryLimitBytes(opts.memory);
    if opts.pause < 0 then Err(NegativePause)
    else if bytes == 0 || bytes < -1 then Err(InvalidMemoryLimit)
    else if bytes > maxBytes then Err(MemoryLimitAboveMaximum)
    else if opts.time.Some? && opts.time.value <= 0 then Err(InvalidTimeLimit)
    else if opts.iterations.Some? && opts.iterations.value <= 0 then Err(InvalidIterationsLimit)
    else if opts.schedule.Some? && parse(opts.schedule.value).None? then Err(InvalidSchedule)
    else
      var schedule := if opts.schedule.None? then None else parse(opts.schedule.value);
      Ok(Config(opts.pause, bytes, opts.time, opts.iterations, schedule))
  }

  // ---------------------------------------------------------------------------
  // The environment
  // ---------------------------------------------------------------------------

  /** The process-control extension: not loaded (no signals are ever
      delivered), or loaded with its two functions enabled or disabled. */
  datatype Pcntl = NotLoaded | Loaded(signalDefined: bool, dispatchDefined: bool)

  /** What one stop check observes: whether dispatching delivers a SIGTERM or
      SIGINT, the clock in ms, and the process memory usage in bytes. */
  datatype Sample = Sample(signal: bool, nowMs: int, memoryUsage: int)

  datatype Env = Env(
    startMs: int,                  // clock reading when the context is built
    pcntl: Pcntl,
    poll: nat -> Sample,           // readings at the k-th stop check
    iterationStops: nat -> bool,   // whether iteration k calls stop()
    nextRun: nat -> int,           // next-run timestamp before iteration k, in s
    now: nat -> int,               // time() at the j-th wait-condition test, in s
    endMs: int,                    // clock reading for the summary
    endMemory: int)                // memory usage for the summary

  // ---------------------------------------------------------------------------
  // The stop test (checkStop)
  // ---------------------------------------------------------------------------

  datatype StopReason = StopRequested | IterationsLimitReached | TimeLimitReached | MemoryLimitReached

  /** The first stop condition that holds, taken in the source's order. */
  function FirstStopReason(c: Counters, cfg: Config, elapsedMs: int, memoryUsage: int)
    : (r: Option<StopReason>)
    ensures r.Some? <==>
              || c.stopAsap
              || (cfg.iterationsLimit.Some? && c.iterations >= cfg.iterationsLimit.value)
              || (cfg.timeLimit.Some? && elapsedMs >= cfg.timeLimit.value * 1000)
              || (cfg.memoryLimit != -1 && memoryUsage >= cfg.memoryLimit)
    ensures r == Some(StopRequested) <==> c.stopAsap
    ensures r == Some(IterationsLimitReached) <==>
              && !c.stopAsap
              && cfg.iterationsLimit.Some? && c.iterations >= cfg.iterationsLimit.value
    ensures r == Some(TimeLimitReached) <==>
              && !c.stopAsap && (cfg.iterationsLimit.None? || c.iterations < cfg.iterationsLimit.value)
              && cfg.timeLimit.Some? && elapsedMs >= cfg.timeLimit.value * 1000
    ensures r == Some(MemoryLimitReached) <==>
              && !c.stopAsap && (cfg.iterationsLimit.None? || c.iterations < cfg.iterationsLimit.value)
              && (cfg.timeLimit.None? || elapsedMs < cfg.timeLimit.value * 1000)
              && cfg.memoryLimit != -1 && memoryUsage >= cfg.memoryLimit
  {
    if c.stopAsap then Some(StopRequested)
    else if cfg.iterationsLimit.Some? && c.iterations >= cfg.iterationsLimit.value then
      Some(IterationsLimitReached)
    else if cfg.timeLimit.Some? && elapsedMs >= cfg.timeLimit.value * 1000 then
      Some(TimeLimitReached)
    else if cfg.memoryLimit != -1 && memoryUsage >= cfg.memoryLimit then
      Some(MemoryLimitReached)
    else None
  }

  /** The live values after a stop check, and its verdict. */
  datatype Probe = Probe(counters: Counters, stop: bool)

  /** One stop check: None when the dispatch function is disabled (the source
      throws); otherwise a delivered signal raises the flag first. */
  function Poll(cfg: Config, startMs: int, pcntl: Pcntl, sample: Sample, c: Counters)
    : (r: Option<Probe>)
    ensures r.None? <==> pcntl.Loaded? && !pcntl.dispatchDefined
    ensures r.Some? ==>
              && r.value.counters.iterations == c.iterations
              && r.value.counters.totalPause == c.totalPause
              && (r.value.counters.stopAsap <==> c.stopAsap || (pcntl.Loaded? && sample.signal))
              && (r.value.stop <==> FirstStopReason(r.value.counters, cfg,
                                      ElapsedMs(startMs, sample.nowMs), sample.memoryUsage).Some?)
  {
    if pcntl.Loaded? && !pcntl.dispatchDefined then None
    else
      var c' := if pcntl.Loaded? && sample.signal then WithStopAsap(c) else c;
      Some(Probe(c', FirstStopReason(c', cfg, ElapsedMs(startMs, sample.nowMs), sample.memoryUsage).Some?))
  }

  method CheckStop(context: ExecutionContext, pcntl: Pcntl, sample: Sample) returns (r: Option<bool>)
    modifies context`stopAsap
    ensures context.Limits() == old(context.Limits()) && context.timeStart == old(context.timeStart)
    ensures var probe := Poll(context.Limits(), context.timeStart, pcntl, sample, old(context.Live()));
            && (probe.None? ==> r.None? && context.Live() == old(context.Live()))
            && (probe.Some? ==> r == Some(probe.value.stop) && context.Live() == probe.value.counters)
  {
    if pcntl.Loaded? {
      if !pcntl.dispatchDefined {
        return None;
      }
      if sample.signal {
        // the handler registered for SIGTERM and SIGINT
        context.StopAsap();
      }
    }
    if context.IsStopAsap() {
      return Some(true);
    }
    if context.GetLimitIterations().Some? && context.GetIterationsCount() >= context.GetLimitIterations().value {
      return Some(true);
    }
    if context.GetLimitTime().Some? && context.GetExecutionTime(sample.nowMs) >= context.GetLimitTime().value * 1000 {
      return Some(true);
    }
    if context.GetMemoryLimit() != -1 && sample.memoryUsage >= context.GetMemoryLimit() {
      return Some(true);
    }
    return Some(false);
  }

  // ---------------------------------------------------------------------------
  // pause and stop
  // ---------------------------------------------------------------------------

  /** The live values after pause(seconds): None for a negative argument
      (the source throws), unchanged for 0, the total raised otherwise. */
  function PauseEffect(seconds: int, c: Counters): (r: Option<Counters>)
    ensures r.None? <==> seconds < 0
    ensures r.Some? ==> r.value == c.(totalPause := c.totalPause + seconds)
    ensures seconds == 0 ==> r == Some(c)
  {
    if seconds < 0 then None
    else if seconds == 0 then Some(c)
    else Some(PauseAdded(c, seconds))
  }

  /** Returns false where the source throws for a negative argument. */
  method Pause(seconds: int, context: ExecutionContext) returns (ok: bool)
    modifies context`totalPause
    ensures context.Limits() == old(context.Limits()) && context.timeStart == old(context.timeStart)
    ensures ok == PauseEffect(seconds, old(context.Live())).Some?
    ensures ok ==> context.Live() == PauseEffect(seconds, old(context.Live())).value
    ensures !ok ==> context.Live() == old(context.Live())
  {
    if seconds < 0 {
      return false;
    }
    if seconds == 0 {
      return true;
    }
    // sleep(seconds)
    context.IncreaseTotalPauseTime(seconds);
    return true;
  }

  method Stop(context: ExecutionContext)
    modifies context`stopAsap
    ensures context.Live() == WithStopAsap(old(context.Live()))
    ensures context.Limits() == old(context.Limits()) && context.timeStart == old(context.timeStart)
  {
    context.StopAsap();
  }

  // ---------------------------------------------------------------------------
  // The main loop, as a specification
  // ---------------------------------------------------------------------------

  /** What the run does, in order. */
  datatype Event =
    | BeforeCycle
    | Iteration(index: nat)                   // executeIteration, with `index` iterations done before
    | StopCheck(iterations: nat, stop: bool)  // a stop check that completed, and its verdict
    | WaitTick                                // sleep(1) while waiting for the schedule
    | Paused(seconds: int)                    // a pause call that returned
    | AfterCycle

  /** How the loop ended. DispatchUnavailable and InvalidPauseValue are the
      exceptions of checkStop and pause; OutOfFuel means the run goes on
      past what the model follows. */
  datatype Exit =
    | StoppedAfterIteration
    | StoppedDuringWait
    | DispatchUnavailable
    | InvalidPauseValue
    | OutOfFuel
  {
    predicate Stopped() {
      this == StoppedAfterIteration || this == StoppedDuringWait
    }
  }

  /** The rest of a run: final live values, exit, and the events on the way. */
  datatype Final = Final(counters: Counters, exit: Exit, trace: seq<Event>)

  function Prepend(events: seq<Event>, r: Final): Final
  {
    r.(trace := events + r.trace)
  }

  lemma PrependTwice(a: seq<Event>, b: seq<Event>, r: Final)
    ensures Prepend(a, Prepend(b, r)) == Prepend(a + b, r)
  {
  }

  /** The run from the top of the loop, with `p` stop checks and `w` wait
      tests already done. */
  function RunCycle(cfg: Config, env: Env, c: Counters, p: nat, w: nat, fuel: nat): (r: Final)
    ensures r.counters.iterations >= c.iterations
    ensures c.stopAsap ==> r.counters.stopAsap
    ensures cfg.pause >= 0 ==> r.counters.totalPause >= c.totalPause
    ensures BeforeCycle !in r.trace && AfterCycle !in r.trace
    decreases fuel, 0
  {
    if fuel == 0 then Final(c, OutOfFuel, [])
    else if cfg.schedule.Some? then RunWait(cfg, env, c, p, w, env.nextRun(c.iterations), fuel - 1)
    else RunIteration(cfg, env, c, p, w, fuel - 1)
  }

  /** The schedule wait: while the next run is in the future, check for a
      stop, then sleep one second. */
  function RunWait(cfg: Config, env: Env, c: Counters, p: nat, w: nat, nextRun: int, fuel: nat): (r: Final)
    ensures r.counters.iterations >= c.iterations
    ensures c.stopAsap ==> r.counters.stopAsap
    ensures cfg.pause >= 0 ==> r.counters.totalPause >= c.totalPause
    ensures BeforeCycle !in r.trace && AfterCycle !in r.trace
    decreases fuel, 2
  {
    if nextRun - env.now(w) <= 0 then RunIteration(cfg, env, c, p, w + 1, fuel)
    else match Poll(cfg, env.startMs, env.pcntl, env.poll(p), c)
      case None => Final(c, DispatchUnavailable, [])
      case Some(probe) =>
        if probe.stop then Final(probe.counters, StoppedDuringWait, [StopCheck(c.iterations, true)])
        else if fuel == 0 then Final(probe.counters, OutOfFuel, [StopCheck(c.iterations, false)])
        else Prepend([StopCheck(c.iterations, false), WaitTick],
                     RunWait(cfg, env, probe.counters, p + 1, w + 1, nextRun, fuel - 1))
  }

  /** The live values after iteration `c.iterations` ran (and maybe called
      stop) and was counted. */
  function AfterIteration(env: Env, c: Counters): Counters
  {
    Incremented(if env.iterationStops(c.iterations) then WithStopAsap(c) else c)
  }

  /** One iteration, the increment, the stop check and the pause. */
  function RunIteration(cfg: Config, env: Env, c: Counters, p: nat, w: nat, fuel: nat): (r: Final)
    ensures r.counters.iterations >= c.iterations + 1
    ensures c.stopAsap ==> r.counters.stopAsap
    ensures cfg.pause >= 0 ==> r.counters.totalPause >= c.totalPause
    ensures BeforeCycle !in r.trace && AfterCycle !in r.trace
    decreases fuel, 1
  {
    var c1 := AfterIteration(env, c);
    match Poll(cfg, env.startMs, env.pcntl, env.poll(p), c1)
    case None => Final(c1, DispatchUnavailable, [Iteration(c.iterations)])
    case Some(probe) =>
      if probe.stop then
        Final(probe.counters, StoppedAfterIteration, [Iteration(c.iterations), StopCheck(c1.iterations, true)])
      else match PauseEffect(cfg.pause, probe.counters)
        case None =>
          Final(probe.counters, InvalidPauseValue, [Iteration(c.iterations), StopCheck(c1.iterations, false)])
        case Some(c2) =>
          Prepend([Iteration(c.iterations), StopCheck(c1.iterations, false), Paused(cfg.pause)],
                  RunCycle(cfg, env, c2, p + 1, w, fuel))
  }

  // ---------------------------------------------------------------------------
  // The whole command (execute)
  // ---------------------------------------------------------------------------

  /** One line of the summary printed after the loop. */
  datatype SummaryLine =
    | ExecutionTime(ms: int)
    | PauseTime(seconds: int)
    | MemoryUsage(bytes: int)
    | IterationsCount(count: nat)

  /** The summary: the pause line only when the total pause is nonzero. */
  function Summary(executionMs: int, totalPause: int, memoryUsage: int, iterations: nat)
    : (r: seq<SummaryLine>)
    ensures |r| == (if totalPause != 0 then 4 else 3)
    ensures r[0] == ExecutionTime(executionMs)
    ensures r[|r| - 2] == MemoryUsage(memoryUsage) && r[|r| - 1] == IterationsCount(iterations)
    ensures PauseTime(totalPause) in r <==> totalPause != 0
    ensures forall k :: 0 <= k < |r| && r[k].PauseTime? ==> r[k] == PauseTime(totalPause)
  {
    [ExecutionTime(executionMs)]
    + (if totalPause != 0 then [PauseTime(totalPause)] else [])
    + [MemoryUsage(memoryUsage), IterationsCount(iterations)]
  }

  datatype StartupError = InvalidConfiguration(error: ConfigError) | SignalFunctionDisabled

  datatype Outcome =
    | Rejected(reason: StartupError)
    | Ran(exit: Exit, counters: Counters, trace: seq<Event>, summary: seq<SummaryLine>)

  /** The hooks' events framing a loop trace that holds none of them. */
  lemma HooksFrame(t: seq<Event>)
    requires BeforeCycle !in t && AfterCycle !in t
    ensures var u := [BeforeCycle] + t;
            && u[0] == BeforeCycle && BeforeCycle !in u[1..] && AfterCycle !in u
    ensures var u := [BeforeCycle] + t + [AfterCycle];
            && u[0] == BeforeCycle && BeforeCycle !in u[1..]
            && u[|u| - 1] == AfterCycle && AfterCycle !in u[..|u| - 1]
  {
    assert ([BeforeCycle] + t)[1..] == t;
    assert ([BeforeCycle] + t + [AfterCycle])[1..] == t + [AfterCycle];
    assert ([BeforeCycle] + t + [AfterCycle])[..|t| + 1] == [BeforeCycle] + t;
  }

  /** The whole command: validation, signal registration, the hooks around
      the loop, and the summary after a stop. */
  function Daemon(opts: RawOptions, maxBytes: int, parse: string -> Option<CronExpression>, env: Env, fuel: nat)
    : (r: Outcome)
    ensures r.Rejected? <==>
              BuildContext(opts, maxBytes, parse).Err? || (env.pcntl.Loaded? && !env.pcntl.signalDefined)
    ensures BuildContext(opts, maxBytes, parse).Err? ==>
              r == Rejected(InvalidConfiguration(BuildContext(opts, maxBytes, parse).error))
    ensures BuildContext(opts, maxBytes, parse).Ok? && env.pcntl.Loaded? && !env.pcntl.signalDefined ==>
              r == Rejected(SignalFunctionDisabled)
    ensures r.Ran? && r.exit.Stopped() ==>
              r.summary == Summary(ElapsedMs(env.startMs, env.endMs), r.counters.totalPause,
                                   env.endMemory, r.counters.iterations)
    ensures r.Ran? ==>
              && |r.trace| > 0 && r.trace[0] == BeforeCycle
              && BeforeCycle !in r.trace[1..]
              && (r.exit.Stopped() <==> AfterCycle in r.trace)
              && (r.exit.Stopped() ==> r.trace[|r.trace| - 1] == AfterCycle && AfterCycle !in r.trace[..|r.trace| - 1])
              && (r.exit.Stopped() <==> r.summary != [])
  {
    match BuildContext(opts, maxBytes, parse)
    case Err(e) => Rejected(InvalidConfiguration(e))
    case Ok(cfg) =>
      if env.pcntl.Loaded? && !env.pcntl.signalDefined then Rejected(SignalFunctionDisabled)
      else
        var run := RunCycle(cfg, env, Initial(), 0, 0, fuel);
        HooksFrame(run.trace);
        if run.exit.Stopped() then
          Ran(run.exit, run.counters, [BeforeCycle] + run.trace + [AfterCycle],
              Summary(ElapsedMs(env.startMs, env.endMs), run.counters.totalPause, env.endMemory,
                      run.counters.iterations))
        else
          Ran(run.exit, run.counters, [BeforeCycle] + run.trace, [])
  }

  // ---------------------------------------------------------------------------
  // The main loop, as the source runs it
  // ---------------------------------------------------------------------------

  /** One round of the schedule wait, while the next run is in the future:
      check for a stop, then sleep one second. */
  method WaitRound(context: ExecutionContext, env: Env, nextRun: int, p0: nat, w0: nat, f0: nat)
    returns (exit: Option<Exit>, events: seq<Event>, p: nat, w: nat, f: nat)
    requires context.timeStart == env.startMs
    requires nextRun - env.now(w0) > 0
    modifies context`stopAsap
    ensures context.Limits() == old(context.Limits()) && context.timeStart == old(context.timeStart)
    ensures exit.Some? ==>
              RunWait(context.Limits(), env, old(context.Live()), p0, w0, nextRun, f0)
                == Final(context.Live(), exit.value, events)
    ensures f <= f0
    ensures exit.None? ==>
              f < f0 &&
              RunWait(context.Limits(), env, old(context.Live()), p0, w0, nextRun, f0)
                == Prepend(events, RunWait(context.Limits(), env, context.Live(), p, w, nextRun, f))
  {
    ghost var cfg := context.Limits();
    ghost var waiting := context.Live();
    p, w, f := p0, w0 + 1, f0;
    var stop := CheckStop(context, env.pcntl, env.poll(p));
    if stop.None? {
      return Some(DispatchUnavailable), [], p, w, f;
    }
    events := [StopCheck(context.GetIterationsCount(), stop.value)];
    p := p + 1;
    if stop.value {
      return Some(StoppedDuringWait), events, p, w, f;
    }
    if f == 0 {
      return Some(OutOfFuel), events, p, w, f;
    }
    f := f - 1;
    // sleep(1)
    events := events + [WaitTick];
    exit := None;
  }

  /** The schedule wait of one cycle (the inner loop). A stop check that
      stops or fails ends the loop; otherwise the wait ends with the
      iteration it lets through. */
  method WaitForSchedule(context: ExecutionContext, env: Env, nextRun: int, p0: nat, w0: nat, f0: nat)
    returns (exit: Option<Exit>, events: seq<Event>, p: nat, w: nat, f: nat)
    requires context.timeStart == env.startMs
    modifies context`stopAsap
    ensures context.Limits() == old(context.Limits()) && context.timeStart == old(context.timeStart)
    ensures f <= f0
    ensures exit.Some? ==>
              RunWait(context.Limits(), env, old(context.Live()), p0, w0, nextRun, f0)
                == Final(context.Live(), exit.value, events)
    ensures exit.None? ==>
              RunWait(context.Limits(), env, old(context.Live()), p0, w0, nextRun, f0)
                == Prepend(events, RunIteration(context.Limits(), env, context.Live(), p, w, f))
  {
    ghost var cfg := context.Limits();
    events, p, w, f := [], p0, w0, f0;
    while nextRun - env.now(w) > 0
      invariant context.Limits() == cfg && context.timeStart == env.startMs
      invariant RunWait(cfg, env, old(context.Live()), p0, w0, nextRun, f0)
                  == Prepend(events, RunWait(cfg, env, context.Live(), p, w, nextRun, f))
      invariant f <= f0
      decreases f
    {
      var roundExit, round;
      roundExit, round, p, w, f := WaitRound(context, env, nextRun, p, w, f);
      if roundExit.Some? {
        PrependTwice(events, round, Final(context.Live(), roundExit.value, []));
        assert round + [] == round;
        return roundExit, events + round, p, w, f;
      }
      PrependTwice(events, round, RunWait(cfg, env, context.Live(), p, w, nextRun, f));
      events := events + round;
    }
    w := w + 1;
    exit := None;
  }

  /** One iteration, the increment, the stop check and the pause (the body
      of the outer loop after the wait). A stop check that stops or fails, or
      a pause that throws, ends the loop. */
  method IterateOnce(context: ExecutionContext, env: Env, p0: nat, w: nat, f: nat)
    returns (exit: Option<Exit>, events: seq<Event>, p: nat)
    requires context.timeStart == env.startMs
    modifies context`iterations, context`stopAsap, context`totalPause
    ensures context.Limits() == old(context.Limits()) && context.timeStart == old(context.timeStart)
    ensures exit.Some? ==>
              RunIteration(context.Limits(), env, old(context.Live()), p0, w, f)
                == Final(context.Live(), exit.value, events)
    ensures exit.None? ==>
              RunIteration(context.Limits(), env, old(context.Live()), p0, w, f)
                == Prepend(events, RunCycle(context.Limits(), env, context.Live(), p, w, f))
  {
    ghost var cfg := context.Limits();
    ghost var before := context.Live();
    p := p0;
    // executeIteration, which may call stop()
    events := [Iteration(context.GetIterationsCount())];
    if env.iterationStops(context.GetIterationsCount()) {
      Stop(context);
    }
    context.IncrementIterations();
    ghost var counted := context.Live();
    assert counted == AfterIteration(env, before);
    var stop := CheckStop(context, env.pcntl, env.poll(p));
    ghost var probe := Poll(cfg, env.startMs, env.pcntl, env.poll(p), counted);
    if stop.None? {
      return Some(DispatchUnavailable), events, p;
    }
    assert probe == Some(Probe(context.Live(), stop.value));
    events := events + [StopCheck(context.GetIterationsCount(), stop.value)];
    p := p + 1;
    if stop.value {
      return Some(StoppedAfterIteration), events, p;
    }
    var paused := Pause(context.GetPauseBetweenIterations(), context);
    if !paused {
      return Some(InvalidPauseValue), events, p;
    }
    assert PauseEffect(cfg.pause, probe.value.counters) == Some(context.Live());
    events := events + [Paused(context.GetPauseBetweenIterations())];
    exit := None;
  }

  method Execute(opts: RawOptions, maxBytes: int, parse: string -> Option<CronExpression>, env: Env, fuel: nat)
    returns (o: Outcome)
    ensures o == Daemon(opts, maxBytes, parse, env, fuel)
  {
    var built := BuildContext(opts, maxBytes, parse);
    if built.Err? {
      return Rejected(InvalidConfiguration(built.error));
    }
    var cfg := built.value;
    var context := new ExecutionContext(cfg.pause, cfg.memoryLimit, cfg.timeLimit,
                                        cfg.iterationsLimit, cfg.schedule, env.startMs);
    // registerSignals
    if env.pcntl.Loaded? && !env.pcntl.signalDefined {
      return Rejected(SignalFunctionDisabled);
    }
    ghost var whole := RunCycle(cfg, env, Initial(), 0, 0, fuel);
    var trace := [BeforeCycle];
    var p, w, f := 0, 0, fuel;
    var exit := OutOfFuel;
    while true
      invariant context.Limits() == cfg && context.timeStart == env.startMs
      invariant Prepend([BeforeCycle], whole) == Prepend(trace, RunCycle(cfg, env, context.Live(), p, w, f))
      decreases f
    {
      if f == 0 {
        exit := OutOfFuel;
        break;
      }
      f := f - 1;
      ghost var atTop := trace;
      if context.GetSchedule().Some? {
        var nextRun := env.nextRun(context.GetIterationsCount());
        var stopped, waited;
        stopped, waited, p, w, f := WaitForSchedule(context, env, nextRun, p, w, f);
        PrependTwice(trace, waited, if stopped.Some? then Final(context.Live(), stopped.value, [])
                                    else RunIteration(cfg, env, context.Live(), p, w, f));
        trace := trace + waited;
        if stopped.Some? {
          exit := stopped.value;
          break;
        }
      }
      assert Prepend([BeforeCycle], whole) == Prepend(trace, RunIteration(cfg, env, context.Live(), p, w, f));
      var ended, events;
      ended, events, p := IterateOnce(context, env, p, w, f);
      PrependTwice(trace, events, if ended.Some? then Final(context.Live(), ended.value, [])
                                  else RunCycle(cfg, env, context.Live(), p, w, f));
      trace := trace + events;
      if ended.Some? {
        exit := ended.value;
        break;
      }
    }
    assert Prepend([BeforeCycle], whole) == Final(context.Live(), exit, trace);
    if exit.Stopped() {
      // afterCycle, then the summary
      trace := trace + [AfterCycle];
      var summary := Summary(context.GetExecutionTime(env.endMs), context.GetTotalPauseTime(),
                             env.endMemory, context.GetIterationsCount());
      o := Ran(exit, context.Live(), trace, summary);
    } else {
      o := Ran(exit, context.Live(), trace, []);
    }
  }
}
