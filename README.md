# daemon-command, modelled in Dafny

This project models the core of `daemon-command`. That is a PHP base class for long-running console commands. It runs a user-supplied iteration in an endless loop until a stop condition fires. It has two parts:

- **`ExecutionContext`** (module `Context`, `execution_context.dfy`) is the run state. It stores the configured limits once (pause, memory limit, time limit, iterations limit, schedule) and a start time. It also keeps three live values that only grow: the iteration count, the total pause time, and the stop-as-soon-as-possible flag. The class keeps the source's fields. Its three mutators are methods with field-level `modifies` clauses, and its getters are `reads this` functions.
- **`AbstractDaemonCommand`** (module `DaemonCommand`, `daemon_command.dfy`) is the controller:
  - `buildContext` validates the options, in order (`BuildContext`);
  - `checkStop` is the ordered four-way stop test (`FirstStopReason`, `Poll` and the method `CheckStop`);
  - `pause` (`PauseEffect` and the method `Pause`) and `stop` (`Stop`);
  - `execute` is the main loop. The imperative method `Execute` keeps the source's outer `while(true)` loop. The inner wait loop is the method `WaitForSchedule`, which runs one `WaitRound` per pass. The source's `break 2` becomes an exit that `WaitForSchedule` returns; `Execute` then leaves its own loop with `break`. `Execute` is proved equal to the recursive specification `Daemon`, which is built from `RunCycle`, `RunWait` and `RunIteration`.

The environment is an `Env` value of oracle functions, indexed by how many times each is read:

- the clock (ms readings at stop checks, `time()` readings in the schedule wait);
- memory usage;
- signal delivery, seen only when a stop check dispatches;
- the cron next-run time before each cycle;
- whether the caller's iteration calls `stop()`.

The `while(true)` loop is driven by fuel. The exit `OutOfFuel` means the source would still be running at that point.

A run records a trace of events: `BeforeCycle`, `Iteration(k)`, `StopCheck(count, stop)`, `WaitTick`, `Paused(s)` and `AfterCycle`. Module `LoopProperties` (`loop_properties.dfy`) proves the loop's ordering and counting facts on that trace.

`registerSignals` rejects the command at startup only when `pcntl_signal` is disabled (src/AbstractDaemonCommand.php:115-118). A disabled `pcntl_signal_dispatch` is first noticed by `checkStop` (src/AbstractDaemonCommand.php:126-129), which runs inside the loop and may run after an iteration. The model then exits the loop with `DispatchUnavailable`.

## Model

| member | source | states |
|---|---|---|
| Context.Initial | src/ExecutionContext.php:26-66 | a fresh context has iteration count 0, total pause 0 and the stop flag clear |
| Context.MutatorsGrow | src/ExecutionContext.php:99-147 | each mutator changes exactly one live value: the count by +1, the pause total by exactly s, the flag to true. The other two values are unchanged. Counts and the non-negative pause only grow, and raising the flag twice equals raising it once |
| Context.ExecutionContext.constructor | src/ExecutionContext.php:68-87 | the limits equal the constructor arguments, the start time is the clock reading at construction, and the live values are the initial ones |
| Context.ExecutionContext.IncreaseTotalPauseTime | src/ExecutionContext.php:99-102 | adds exactly `seconds` to the total pause; the count, the flag, the limits and the start time are unchanged |
| Context.ExecutionContext.IncrementIterations | src/ExecutionContext.php:114-117 | raises the count by exactly 1; nothing else changes |
| Context.ExecutionContext.StopAsap | src/ExecutionContext.php:144-147 | sets the flag; nothing else changes |
| Context.ExecutionContext.GettersRead | src/ExecutionContext.php:104-157 | every getter returns the stored limit or live value unchanged; the execution time is measured from the stored start |
| Context.ElapsedNeverNegative | src/ExecutionContext.php:104-107 | for a clock that never runs backwards from the start reading, the elapsed time is never negative |
| DaemonCommand.MemoryBytesRejected | src/AbstractDaemonCommand.php:78-82 | the byte-level test (0 or below -1, after -1 is kept and anything else is multiplied by 1024·1024) rejects exactly the megabyte values that are neither -1 nor positive |
| DaemonCommand.BuildContext | src/AbstractDaemonCommand.php:72-111 | each error, in the source's order, is returned exactly when its check is the first that fails. Success holds exactly when all checks pass, and then the configuration is valid and carries the option values (memory in bytes, schedule parsed) |
| DaemonCommand.FirstStopReason | src/AbstractDaemonCommand.php:133-145 | a stop reason exists exactly when the flag is set, or the count reached the iterations limit, or the elapsed time reached the time limit, or memory usage reached a set memory limit. Each reason is returned exactly when its own condition holds and none of the earlier ones does, in the order flag, iterations, time, memory |
| DaemonCommand.Poll | src/AbstractDaemonCommand.php:124-145 | the check fails exactly when the extension is loaded and dispatch is disabled. Otherwise a delivered signal raises the flag, the count and pause total are unchanged, and the verdict is "a stop reason exists" |
| DaemonCommand.CheckStop | src/AbstractDaemonCommand.php:124-146 | the method's verdict and new context state are those of `Poll`; a failing dispatch leaves the context unchanged |
| DaemonCommand.PauseEffect | src/AbstractDaemonCommand.php:148-158 | rejected exactly for negative seconds; 0 changes nothing; otherwise exactly `seconds` is added to the total |
| DaemonCommand.Pause | src/AbstractDaemonCommand.php:148-158 | the method fails exactly when `PauseEffect` rejects, leaving the context unchanged; otherwise the context holds `PauseEffect`'s values |
| DaemonCommand.Stop | src/AbstractDaemonCommand.php:160-163 | sets the flag of the context and nothing else |
| DaemonCommand.RunCycle | src/AbstractDaemonCommand.php:43-59 | from the top of the loop, the count never decreases, a raised flag stays raised, a non-negative pause never lowers the total, and no hook event occurs inside the loop |
| DaemonCommand.RunWait | src/AbstractDaemonCommand.php:44-52 | the same invariants over the schedule wait and the rest of the run |
| DaemonCommand.RunIteration | src/AbstractDaemonCommand.php:53-58 | the same invariants, and the count grows by at least 1 |
| DaemonCommand.Summary | src/AbstractDaemonCommand.php:62-67 | the summary has execution time first, then memory usage and the iteration count last. The pause line is present exactly when the total pause is nonzero, so there are 4 lines or 3 |
| DaemonCommand.Daemon | src/AbstractDaemonCommand.php:38-70 | the command is rejected exactly when validation fails or `pcntl_signal` is disabled, and a validation error is reported first; with a valid configuration the reason is the disabled `pcntl_signal`. In a run, `BeforeCycle` comes first and only once. `AfterCycle` and a summary occur exactly when the loop stopped (not on an exception), and `AfterCycle` is then last. The summary reports the final count and pause total, the execution time from the start reading and the final memory reading |
| DaemonCommand.WaitRound | src/AbstractDaemonCommand.php:46-51 | one round of the imperative wait does what `RunWait` specifies for one step |
| DaemonCommand.WaitForSchedule | src/AbstractDaemonCommand.php:44-52 | the imperative inner loop leaves the environment, context and events that `RunWait` specifies, up to the iteration it lets through |
| DaemonCommand.IterateOnce | src/AbstractDaemonCommand.php:53-58 | iteration, increment, stop check and pause, done imperatively, match `RunIteration` |
| DaemonCommand.Execute | src/AbstractDaemonCommand.php:38-70 | the imperative command returns exactly `Daemon`'s outcome |
| LoopProperties.PausedIteration | src/AbstractDaemonCommand.php:53-58 | an iteration whose check does not stop emits its iteration, its check and its pause, then continues at the top of the loop with the pause added |
| LoopProperties.CycleCounts | src/AbstractDaemonCommand.php:43-59 | the final count is the initial count plus the number of `executeIteration` calls. The final total pause is the initial total plus the pause times the number of pause calls |
| LoopProperties.WaitCounts | src/AbstractDaemonCommand.php:44-52 | the same counting fact from inside the schedule wait |
| LoopProperties.IterationCounts | src/AbstractDaemonCommand.php:53-58 | the same counting fact from an iteration |
| LoopProperties.PausedIterationCounts | src/AbstractDaemonCommand.php:53-58 | the same counting fact across one paused iteration |
| LoopProperties.CycleNeverRejectsPause | src/AbstractDaemonCommand.php:58 | with a non-negative pause, the loop never ends by `pause` throwing |
| LoopProperties.WaitNeverRejectsPause | src/AbstractDaemonCommand.php:44-58 | the same fact from inside the schedule wait |
| LoopProperties.IterationNeverRejectsPause | src/AbstractDaemonCommand.php:53-58 | the same fact from an iteration |
| LoopProperties.PauseNeverRejectedAfterValidation | src/AbstractDaemonCommand.php:74-77 | after validation succeeds, `pause` never throws in the loop |
| LoopProperties.CycleOrdered | src/AbstractDaemonCommand.php:43-59 | the loop's events are ordered (see `RunIsOrdered`), from the top of the loop |
| LoopProperties.WaitOrdered | src/AbstractDaemonCommand.php:44-52 | the same ordering from inside the schedule wait |
| LoopProperties.IterationOrdered | src/AbstractDaemonCommand.php:53-58 | the same ordering from an iteration |
| LoopProperties.IterationEndOrdered | src/AbstractDaemonCommand.php:53-57 | the same ordering for an iteration whose check fails or stops |
| LoopProperties.PausedIterationOrdered | src/AbstractDaemonCommand.php:53-59 | the same ordering when an iteration, its check that does not stop and its pause come before a new cycle |
| LoopProperties.RunIsOrdered | src/AbstractDaemonCommand.php:42-60 | on the whole command, between the hooks:<br>• each iteration is followed at once by a stop check that sees its increment (count = index + 1);<br>• a pause comes only right after an iteration and its check that did not stop, so no pause follows the final iteration;<br>• a check that stops is the last loop event;<br>• a loop that stopped ends with that check, and right after an iteration exactly when it stopped after one |
| LoopProperties.FirstIterationWithoutSchedule | src/AbstractDaemonCommand.php:43-57 | without a schedule, a cycle starts with an iteration and counts it |
| LoopProperties.AtLeastOneIteration | src/AbstractDaemonCommand.php:42-57 | without a schedule, every run executes iteration 0 right after `beforeCycle`, before any stop check |
| LoopProperties.StopRequestEndsAfterIteration | src/AbstractDaemonCommand.php:53-57 | a stop requested by the iteration or by a signal at the next check lets the iteration finish and be counted. The loop then exits after that check, with no pause |
| LoopProperties.WaitStopSkipsIteration | src/AbstractDaemonCommand.php:44-52 | a check that stops during the schedule wait exits the loop without the pending iteration; the count and pause total are unchanged |
| LoopProperties.LimitedTrace | src/AbstractDaemonCommand.php:53-58 | the events of iterations k..n-1 under an iterations limit n: n-k iterations, n-k-1 pauses, ending with the last iteration and the check that stops |
| LoopProperties.LimitedStep | src/AbstractDaemonCommand.php:53-58 | under an iterations limit n, and with nothing else stopping, the check after iteration k stops exactly when k+1 = n; otherwise the pause follows |
| LoopProperties.LimitedRun | src/AbstractDaemonCommand.php:43-58 | under an iterations limit n, and with nothing else stopping, the loop from iteration k runs exactly the events of `LimitedTrace` and stops after the n-th increment |
| LoopProperties.RunsExactlyIterationsLimit | src/AbstractDaemonCommand.php:43-65 | with no schedule, an iterations limit n, and nothing else stopping the run:<br>• `executeIteration` runs exactly n times;<br>• the loop exits right after the n-th increment;<br>• `pause` is called n-1 times, so the total pause is pause·(n-1);<br>• the summary shows a pause line exactly when that total is nonzero |

## Left out

- Symfony console plumbing is I/O and framework wiring. This covers option registration, the input/output objects stored in the context and their getters, and the look of the summary lines. The summary is modelled as a list of typed lines.
- Casting option strings to integers is outside the model: options arrive as integers, with None for absent options.
- BuildContext: PHP's 64-bit integer overflow in `m * 1024 * 1024` is not modelled; integers are unbounded. In PHP an overflowing product becomes a float, and comparing it with the integer `memory_limit_bytes()` turns that integer into a float too. Below maxBytes = 2^63 both reject exactly the same values. The one difference there is which error m = 2^43 gets (its product is 2^63) when maxBytes is 2^63 − 512 or more. PHP's float comparison at src/AbstractDaemonCommand.php:83 lets it through, and the integer-typed constructor parameter (src/ExecutionContext.php:72) then throws a TypeError. The model reports `MemoryLimitAboveMaximum`. When maxBytes is 2^63 or more, the model accepts products that PHP rejects at the constructor.
- Cron parsing and the next-run computation belong to a foreign library. The parser is a function parameter returning an optional expression, and the next-run time is an oracle per cycle.
- `sleep`, `time`, `microtime` and `memory_get_usage` are environment readings. They are taken from the `Env` oracle, and a sleep is only recorded as an event.
- FirstStopReason: time is integer milliseconds. The source rounds elapsed seconds to three decimals before it compares them with the limit, and the model compares the millisecond reading with the limit × 1000. The summary's memory figure in rounded megabytes is given as bytes.
- `memory_limit_bytes()` is not part of this model; the maximum is a parameter of `BuildContext`.
- Signals are asynchronous in the source. Their effect is modelled only where the source does observe them, at each stop check's dispatch.
- `executeIteration`, `beforeCycle` and `afterCycle` are caller hooks. Only their calls and order are modelled, plus whether an iteration calls `stop()`. An exception thrown from a hook is not modelled.
- The `AfterIterationEvent` value holder is not part of this model.
- Daemon: the loop is followed for at most `fuel` cycles and wait rounds. The exit `OutOfFuel` stands for a source run that goes on, so properties of runs that never stop are stated only up to that bound.
- The exceptions of `checkStop` and `pause` are modelled as the loop exits `DispatchUnavailable` and `InvalidPauseValue`. These skip `afterCycle` and the summary, as the thrown exception does.
