/** The run state of one daemon run: the limits it was configured with, which
    never change, and three live values that only grow (the iteration count,
    the total pause time, and the stop-as-soon-as-possible flag). */
module Context {

  datatype Option<T> = None | Some(value: T)

  /** A parsed cron expression. Parsing and next-run computation belong to a
      foreign library; the model keeps only the expression text. */
  datatype CronExpression = CronExpression(expression: string)

  /** The configured limits, as handed to the constructor. */
  datatype Config = Config(
    pause: int,                          // seconds between iterations
    memoryLimit: int,                    // bytes, or -1 for no limit
    timeLimit: Option<int>,              // seconds
    iterationsLimit: Option<int>,
    schedule: Option<CronExpression>)

  /** The live values of a run. */
  datatype Counters = Counters(iterations: nat, totalPause: int, stopAsap: bool)

  /** The live values right after construction. */
  function Initial(): (c: Counters)
    ensures c.iterations == 0 && c.totalPause == 0 && !c.stopAsap
  {
    Counters(0, 0, false)
  }

  /** Effect of incrementIterations. */
  function Incremented(c: Counters): Counters
  {
    c.(iterations := c.iterations + 1)
  }

  /** Effect of increaseTotalPauseTime(seconds). */
  function PauseAdded(c: Counters, seconds: int): Counters
  {
    c.(totalPause := c.totalPause + seconds)
  }

  /** Effect of stopAsap. */
  function WithStopAsap(c: Counters): Counters
  {
    c.(stopAsap := true)
  }

  /** `after` is reachable from `before` by values that only grow. */
  ghost predicate Grows(before: Counters, after: Counters)
  {
    && before.iterations <= after.iterations
    && before.totalPause <= after.totalPause
    && (before.stopAsap ==> after.stopAsap)
  }

  /** Each mutator changes exactly one live value, in the direction it grows;
      raising the flag twice is the same as raising it once. */
  lemma MutatorsGrow(c: Counters, seconds: int)
    ensures Incremented(c).iterations == c.iterations + 1 && Grows(c, Incremented(c))
    ensures Incremented(c).(iterations := c.iterations) == c
    ensures PauseAdded(c, seconds).totalPause == c.totalPause + seconds
    ensures PauseAdded(c, seconds).(totalPause := c.totalPause) == c
    ensures seconds >= 0 ==> Grows(c, PauseAdded(c, seconds))
    ensures WithStopAsap(c).stopAsap && Grows(c, WithStopAsap(c))
    ensures WithStopAsap(c).(stopAsap := c.stopAsap) == c
    ensures WithStopAsap(WithStopAsap(c)) == WithStopAsap(c)
  {
  }

  /** Elapsed milliseconds between the start reference and a clock reading. */
  function ElapsedMs(startMs: int, nowMs: int): int
  {
    nowMs - startMs
  }

  class ExecutionContext {
    var pause: int
    var memoryLimit: int
    var timeLimit: Option<int>
    var iterationsLimit: Option<int>
    var schedule: Option<CronExpression>
    var timeStart: int            // clock reading at construction, in ms
    var totalPause: int
    var iterations: nat
    var stopAsap: bool

    function Limits(): Config
      reads this
    {
      Config(pause, memoryLimit, timeLimit, iterationsLimit, schedule)
    }

    function Live(): Counters
      reads this
    {
      Counters(iterations, totalPause, stopAsap)
    }

    /** `timeStart` is the clock reading taken while constructing. */
    constructor (pause: int, memoryLimit: int, timeLimit: Option<int>,
                 iterationsLimit: Option<int>, schedule: Option<CronExpression>, timeStart: int)
      ensures Limits() == Config(pause, memoryLimit, timeLimit, iterationsLimit, schedule)
      ensures this.timeStart == timeStart
      ensures Live() == Initial()
    {
      this.pause := pause;
      this.memoryLimit := memoryLimit;
      this.timeLimit := timeLimit;
      this.iterationsLimit := iterationsLimit;
      this.schedule := schedule;
      this.timeStart := timeStart;
      totalPause := 0;
      iterations := 0;
      stopAsap := false;
    }

    method IncreaseTotalPauseTime(seconds: int)
      modifies this`totalPause
      ensures Live() == PauseAdded(old(Live()), seconds)
      ensures Limits() == old(Limits()) && timeStart == old(timeStart)
    {
      totalPause := totalPause + seconds;
    }

    /** Execution time so far, for a clock reading `nowMs`. */
    function GetExecutionTime(nowMs: int): int
      reads this
    {
      ElapsedMs(timeStart, nowMs)
    }

    function GetTotalPauseTime(): int
      reads this
    {
      totalPause
    }

    method IncrementIterations()
      modifies this`iterations
      ensures Live() == Incremented(old(Live()))
      ensures Limits() == old(Limits()) && timeStart == old(timeStart)
    {
      iterations := iterations + 1;
    }

    function GetIterationsCount(): nat
      reads this
    {
      iterations
    }

    function GetLimitIterations(): Option<int>
      reads this
    {
      iterationsLimit
    }

    function GetSchedule(): Option<CronExpression>
      reads this
    {
      schedule
    }

    function GetMemoryLimit(): int
      reads this
    {
      memoryLimit
    }

    function GetLimitTime(): Option<int>
      reads this
    {
      timeLimit
    }

    method StopAsap()
      modifies this`stopAsap
      ensures Live() == WithStopAsap(old(Live()))
      ensures Limits() == old(Limits()) && timeStart == old(timeStart)
    {
      stopAsap := true;
    }

    function IsStopAsap(): bool
      reads this
    {
      stopAsap
    }

    function GetPauseBetweenIterations(): int
      reads this
    {
      pause
    }

    /** The getters return the stored values: the configured limits and the
        live values, unchanged. */
    lemma GettersRead(nowMs: int)
      ensures GetPauseBetweenIterations() == Limits().pause
      ensures GetMemoryLimit() == Limits().memoryLimit
      ensures GetLimitTime() == Limits().timeLimit
      ensures GetLimitIterations() == Limits().iterationsLimit
      ensures GetSchedule() == Limits().schedule
      ensures GetIterationsCount() == Live().iterations
      ensures GetTotalPauseTime() == Live().totalPause
      ensures IsStopAsap() == Live().stopAsap
      ensures GetExecutionTime(nowMs) == ElapsedMs(timeStart, nowMs)
    {
    }
  }

  /** A clock that never runs backwards from the start reference. */
  ghost predicate MonotoneClock(startMs: int, clock: nat -> int)
  {
    && startMs <= clock(0)
    && forall k: nat :: k > 0 ==> clock(k - 1) <= clock(k)
  }

  /** Elapsed time never goes below zero for a monotone clock. */
  lemma {:induction false} ElapsedNeverNegative(startMs: int, clock: nat -> int, k: nat)
    requires MonotoneClock(startMs, clock)
    ensures ElapsedMs(startMs, clock(k)) >= 0
    decreases k
  {
    if k > 0 {
      ElapsedNeverNegative(startMs, clock, k - 1);
    }
  }
}
