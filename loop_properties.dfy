/** Properties of the daemon loop, proved on its specification
    (RunCycle, RunWait, RunIteration and Daemon), which Execute is proved
    to follow. */
module LoopProperties {
  import opened Context
  import opened DaemonCommand

  // ---------------------------------------------------------------------------
  // Counting events
  // ---------------------------------------------------------------------------

  /** Number of calls to executeIteration in a trace. */
  function Iterations(t: seq<Event>): nat
  {
    if t == [] then 0 else (if t[0].Iteration? then 1 else 0) + Iterations(t[1..])
  }

  /** Number of completed pause calls in a trace. */
  function Pauses(t: seq<Event>): nat
  {
    if t == [] then 0 else (if t[0].Paused? then 1 else 0) + Pauses(t[1..])
  }

  lemma {:induction false} CountsAppend(a: seq<Event>, b: seq<Event>)
    ensures Iterations(a + b) == Iterations(a) + Iterations(b)
    ensures Pauses(a + b) == Pauses(a) + Pauses(b)
  {
    if a == [] {
      assert a + b == b;
    } else {
      assert (a + b)[1..] == a[1..] + b;
      CountsAppend(a[1..], b);
    }
  }

  lemma CountsCons(e: Event, t: seq<Event>)
    ensures Iterations([e] + t) == (if e.Iteration? then 1 else 0) + Iterations(t)
    ensures Pauses([e] + t) == (if e.Paused? then 1 else 0) + Pauses(t)
  {
    assert ([e] + t)[1..] == t;
  }

  /** Counts of the event groups the loop emits at once. */
  lemma CountsOfGroups(a: Event, b: Event, c: Event, t: seq<Event>)
    ensures Iterations([a]) == (if a.Iteration? then 1 else 0)
    ensures Pauses([a]) == (if a.Paused? then 1 else 0)
    ensures Iterations([a, b]) == Iterations([a]) + Iterations([b])
    ensures Pauses([a, b]) == Pauses([a]) + Pauses([b])
    ensures Iterations([a, b] + t) == Iterations([a, b]) + Iterations(t)
    ensures Pauses([a, b] + t) == Pauses([a, b]) + Pauses(t)
    ensures Iterations([a, b, c] + t) == Iterations([a, b]) + Iterations([c]) + Iterations(t)
    ensures Pauses([a, b, c] + t) == Pauses([a, b]) + Pauses([c]) + Pauses(t)
  {
    CountsCons(a, []);
    CountsCons(b, []);
    CountsCons(c, []);
    assert [a] + [] == [a] && [b] + [] == [b] && [c] + [] == [c];
    CountsCons(a, [b]);
    assert [a] + [b] == [a, b];
    CountsCons(c, t);
    CountsCons(b, [c] + t);
    CountsCons(a, [b] + ([c] + t));
    assert [a] + ([b] + ([c] + t)) == [a, b, c] + t;
    CountsCons(b, t);
    CountsCons(a, [b] + t);
    assert [a] + ([b] + t) == [a, b] + t;
  }

  /** An iteration whose check does not stop and whose pause is accepted
      emits its three events and goes on to the next cycle. */
  lemma PausedIteration(cfg: Config, env: Env, c: Counters, p: nat, w: nat, fuel: nat, probe: Probe)
    requires Poll(cfg, env.startMs, env.pcntl, env.poll(p), AfterIteration(env, c)) == Some(probe)
    requires !probe.stop && cfg.pause >= 0
    ensures probe.counters.iterations == c.iterations + 1 && probe.counters.totalPause == c.totalPause
    ensures RunIteration(cfg, env, c, p, w, fuel)
              == Prepend([Iteration(c.iterations), StopCheck(c.iterations + 1, false), Paused(cfg.pause)],
                         RunCycle(cfg, env, PauseAdded(probe.counters, cfg.pause), p + 1, w, fuel))
  {
    assert PauseEffect(cfg.pause, probe.counters) == Some(PauseAdded(probe.counters, cfg.pause));
  }

  // ---------------------------------------------------------------------------
  // The live values follow the trace
  // ---------------------------------------------------------------------------

  /** The iteration count grows by the number of iterations run, and the
      total pause by the configured pause for every pause call. */
  ghost predicate CountsFollowTrace(cfg: Config, c: Counters, r: Final)
  {
    && r.counters.iterations == c.iterations + Iterations(r.trace)
    && r.counters.totalPause == c.totalPause + cfg.pause * Pauses(r.trace)
  }

  /** Counts of the event groups the loop emits at once. */
  lemma GroupCounts(k: nat, s: nat, stop: bool, q: int)
    ensures Iterations([Iteration(k)]) == 1 && Pauses([Iteration(k)]) == 0
    ensures Iterations([Iteration(k), StopCheck(k + 1, stop)]) == 1
    ensures Pauses([Iteration(k), StopCheck(k + 1, stop)]) == 0
    ensures Iterations([Iteration(k), StopCheck(k + 1, false), Paused(q)]) == 1
    ensures Pauses([Iteration(k), StopCheck(k + 1, false), Paused(q)]) == 1
    ensures Iterations([StopCheck(s, stop)]) == 0 && Pauses([StopCheck(s, stop)]) == 0
    ensures Iterations([StopCheck(s, false), WaitTick]) == 0 && Pauses([StopCheck(s, false), WaitTick]) == 0
  {
    assert [Iteration(k)][1..] == [];
    assert [Iteration(k), StopCheck(k + 1, stop)][1..] == [StopCheck(k + 1, stop)];
    assert [StopCheck(k + 1, stop)][1..] == [];
    assert [Iteration(k), StopCheck(k + 1, false), Paused(q)][1..] == [StopCheck(k + 1, false), Paused(q)];
    assert [StopCheck(k + 1, false), Paused(q)][1..] == [Paused(q)];
    assert [Paused(q)][1..] == [];
    assert Iterations([Paused(q)]) == 0 && Pauses([Paused(q)]) == 1;
    assert Iterations([StopCheck(k + 1, false), Paused(q)]) == 0;
    assert Pauses([StopCheck(k + 1, false), Paused(q)]) == 1;
    assert [StopCheck(s, stop)][1..] == [];
    assert [StopCheck(s, false), WaitTick][1..] == [WaitTick];
    assert [WaitTick][1..] == [];
  }

  /** Prepending a group whose counts match the growth of the live values
      keeps the counts following the trace. */
  lemma CountsPrepend(cfg: Config, c: Counters, next: Counters, h: seq<Event>, r: Final)
    requires CountsFollowTrace(cfg, next, r)
    requires next.iterations == c.iterations + Iterations(h)
    requires next.totalPause == c.totalPause + cfg.pause * Pauses(h)
    ensures CountsFollowTrace(cfg, c, Prepend(h, r))
  {
    assert Prepend(h, r).trace == h + r.trace;
    CountsAppend(h, r.trace);
    assert Iterations(h + r.trace) == Iterations(h) + Iterations(r.trace);
    assert Pauses(h + r.trace) == Pauses(h) + Pauses(r.trace);
    Distribute(cfg.pause, Pauses(h), Pauses(r.trace));
  }

  lemma Distribute(a: int, x: int, y: int)
    ensures a * (x + y) == a * x + a * y
  {
  }

  lemma {:induction false} CycleCounts(cfg: Config, env: Env, c: Counters, p: nat, w: nat, fuel: nat)
    ensures CountsFollowTrace(cfg, c, RunCycle(cfg, env, c, p, w, fuel))
    decreases fuel, 0
  {
    if fuel > 0 {
      if cfg.schedule.Some? {
        WaitCounts(cfg, env, c, p, w, env.nextRun(c.iterations), fuel - 1);
      } else {
        IterationCounts(cfg, env, c, p, w, fuel - 1);
      }
    }
  }

  lemma {:induction false} WaitCounts(cfg: Config, env: Env, c: Counters, p: nat, w: nat, nextRun: int, fuel: nat)
    ensures CountsFollowTrace(cfg, c, RunWait(cfg, env, c, p, w, nextRun, fuel))
    decreases fuel, 3
  {
    GroupCounts(0, c.iterations, true, 0);
    GroupCounts(0, c.iterations, false, 0);
    if nextRun - env.now(w) <= 0 {
      IterationCounts(cfg, env, c, p, w + 1, fuel);
    } else {
      var probe := Poll(cfg, env.startMs, env.pcntl, env.poll(p), c);
      if probe.Some? && !probe.value.stop && fuel > 0 {
        var rest := RunWait(cfg, env, probe.value.counters, p + 1, w + 1, nextRun, fuel - 1);
        WaitCounts(cfg, env, probe.value.counters, p + 1, w + 1, nextRun, fuel - 1);
        CountsPrepend(cfg, c, probe.value.counters, [StopCheck(c.iterations, false), WaitTick], rest);
      }
    }
  }

  lemma {:induction false} IterationCounts(cfg: Config, env: Env, c: Counters, p: nat, w: nat, fuel: nat)
    ensures CountsFollowTrace(cfg, c, RunIteration(cfg, env, c, p, w, fuel))
    decreases fuel, 2
  {
    var probe := Poll(cfg, env.startMs, env.pcntl, env.poll(p), AfterIteration(env, c));
    if probe.Some? && !probe.value.stop && cfg.pause >= 0 {
      PausedIteration(cfg, env, c, p, w, fuel, probe.value);
      PausedIterationCounts(cfg, env, c, PauseAdded(probe.value.counters, cfg.pause), p + 1, w, fuel);
    } else {
      GroupCounts(c.iterations, 0, probe.Some? && probe.value.stop, 0);
    }
  }

  /** A paused iteration's events before the next cycle. */
  lemma {:induction false} PausedIterationCounts(cfg: Config, env: Env, c: Counters, next: Counters,
                                                 p: nat, w: nat, fuel: nat)
    requires next.iterations == c.iterations + 1 && next.totalPause == c.totalPause + cfg.pause
    ensures CountsFollowTrace(cfg, c, Prepend([Iteration(c.iterations), StopCheck(c.iterations + 1, false), Paused(cfg.pause)],
                                              RunCycle(cfg, env, next, p, w, fuel)))
    decreases fuel, 1
  {
    CycleCounts(cfg, env, next, p, w, fuel);
    GroupCounts(c.iterations, 0, false, cfg.pause);
    CountsPrepend(cfg, c, next, [Iteration(c.iterations), StopCheck(c.iterations + 1, false), Paused(cfg.pause)],
                  RunCycle(cfg, env, next, p, w, fuel));
  }

  // ---------------------------------------------------------------------------
  // A validated pause never throws
  // ---------------------------------------------------------------------------

  lemma {:induction false} CycleNeverRejectsPause(cfg: Config, env: Env, c: Counters, p: nat, w: nat, fuel: nat)
    requires cfg.pause >= 0
    ensures RunCycle(cfg, env, c, p, w, fuel).exit != InvalidPauseValue
    decreases fuel, 0
  {
    if fuel > 0 {
      if cfg.schedule.Some? {
        WaitNeverRejectsPause(cfg, env, c, p, w, env.nextRun(c.iterations), fuel - 1);
      } else {
        IterationNeverRejectsPause(cfg, env, c, p, w, fuel - 1);
      }
    }
  }

  lemma {:induction false} WaitNeverRejectsPause(cfg: Config, env: Env, c: Counters, p: nat, w: nat, nextRun: int, fuel: nat)
    requires cfg.pause >= 0
    ensures RunWait(cfg, env, c, p, w, nextRun, fuel).exit != InvalidPauseValue
    decreases fuel, 2
  {
    if nextRun - env.now(w) <= 0 {
      IterationNeverRejectsPause(cfg, env, c, p, w + 1, fuel);
    } else {
      var probe := Poll(cfg, env.startMs, env.pcntl, env.poll(p), c);
      if probe.Some? && !probe.value.stop && fuel > 0 {
        WaitNeverRejectsPause(cfg, env, probe.value.counters, p + 1, w + 1, nextRun, fuel - 1);
      }
    }
  }

  lemma {:induction false} IterationNeverRejectsPause(cfg: Config, env: Env, c: Counters, p: nat, w: nat, fuel: nat)
    requires cfg.pause >= 0
    ensures RunIteration(cfg, env, c, p, w, fuel).exit != InvalidPauseValue
    decreases fuel, 1
  {
    var probe := Poll(cfg, env.startMs, env.pcntl, env.poll(p), AfterIteration(env, c));
    if probe.Some? && !probe.value.stop {
      CycleNeverRejectsPause(cfg, env, PauseEffect(cfg.pause, probe.value.counters).value, p + 1, w, fuel);
    }
  }

  /** The defensive check in pause never fires on a validated configuration. */
  lemma PauseNeverRejectedAfterValidation(opts: RawOptions, maxBytes: int,
                                          parse: string -> Option<CronExpression>, env: Env, fuel: nat)
    ensures Daemon(opts, maxBytes, parse, env, fuel).Ran? ==>
              Daemon(opts, maxBytes, parse, env, fuel).exit != InvalidPauseValue
  {
    var built := BuildContext(opts, maxBytes, parse);
    if built.Ok? {
      CycleNeverRejectsPause(built.value, env, Initial(), 0, 0, fuel);
    }
  }

  // ---------------------------------------------------------------------------
  // Ordering of the events
  // ---------------------------------------------------------------------------

  /** Every iteration is followed at once by the stop check that sees its
      increment; only a failed dispatch leaves an iteration last. */
  ghost predicate IterationsChecked(t: seq<Event>, exit: Exit)
  {
    forall i :: 0 <= i < |t| && t[i].Iteration? ==>
      if i + 1 < |t| then t[i + 1].StopCheck? && t[i + 1].iterations == t[i].index + 1
      else exit == DispatchUnavailable
  }

  /** A pause comes only right after an iteration and its check that did not stop. */
  ghost predicate PausesAfterChecks(t: seq<Event>)
  {
    forall i :: 0 <= i < |t| && t[i].Paused? ==>
      2 <= i && t[i - 2].Iteration? && t[i - 1] == StopCheck(t[i - 2].index + 1, false)
  }

  /** A stop check that stops is the last event. */
  ghost predicate StopIsLast(t: seq<Event>)
  {
    forall i :: 0 <= i < |t| && t[i].StopCheck? && t[i].stop ==> i == |t| - 1
  }

  /** The ordering facts of the loop. */
  ghost predicate WellOrdered(t: seq<Event>, exit: Exit)
  {
    IterationsChecked(t, exit) && PausesAfterChecks(t) && StopIsLast(t)
  }

  /** How the end of the trace shows the exit: a stopped run ends with a
      check that stops, after an iteration exactly when it stopped after one;
      a wait that stops leaves the pending iteration unrun. */
  ghost predicate ExitShown(t: seq<Event>, r: Final)
  {
    && (r.exit.Stopped() <==> |t| > 0 && t[|t| - 1] == StopCheck(r.counters.iterations, true))
    && (r.exit == StoppedAfterIteration ==> |t| >= 2 && r.counters.iterations > 0
                                              && t[|t| - 2] == Iteration(r.counters.iterations - 1))
    && (r.exit == StoppedDuringWait ==> |t| == 1 || !t[|t| - 2].Iteration?)
  }

  /** A cycle's trace begins with an iteration or a stop check. */
  ghost predicate StartsCycle(t: seq<Event>)
  {
    |t| > 0 ==> t[0].Iteration? || t[0].StopCheck?
  }

  ghost predicate Ordered(r: Final)
  {
    WellOrdered(r.trace, r.exit) && ExitShown(r.trace, r) && StartsCycle(r.trace)
  }

  /** No event of `h` is a stop check that stops. */
  ghost predicate NoStop(h: seq<Event>)
  {
    forall i :: 0 <= i < |h| && h[i].StopCheck? ==> !h[i].stop
  }

  lemma IterationsCheckedPrepend(h: seq<Event>, t: seq<Event>, exit: Exit)
    requires IterationsChecked(h, exit) && IterationsChecked(t, exit)
    requires |h| > 0 && !h[|h| - 1].Iteration?
    ensures IterationsChecked(h + t, exit)
  {
    var u := h + t;
    forall i | 0 <= i < |u| && u[i].Iteration?
      ensures if i + 1 < |u| then u[i + 1].StopCheck? && u[i + 1].iterations == u[i].index + 1
              else exit == DispatchUnavailable
    {
      if i < |h| {
        assert u[i] == h[i] && h[i].Iteration?;
        assert i + 1 < |h|;
        assert h[i + 1].StopCheck? && h[i + 1].iterations == h[i].index + 1;
        assert u[i + 1] == h[i + 1];
      } else {
        var j := i - |h|;
        assert u[i] == t[j] && t[j].Iteration?;
        if i + 1 < |u| {
          assert j + 1 < |t| && u[i + 1] == t[j + 1];
          assert t[j + 1].StopCheck? && t[j + 1].iterations == t[j].index + 1;
        } else {
          assert !(j + 1 < |t|);
          assert exit == DispatchUnavailable;
        }
      }
    }
  }

  lemma PausesAfterChecksPrepend(h: seq<Event>, t: seq<Event>)
    requires PausesAfterChecks(h) && PausesAfterChecks(t)
    ensures PausesAfterChecks(h + t)
  {
    var u := h + t;
    forall i | 0 <= i < |u| && u[i].Paused?
      ensures 2 <= i && u[i - 2].Iteration? && u[i - 1] == StopCheck(u[i - 2].index + 1, false)
    {
      if i < |h| {
        assert h[i].Paused?;
        assert u[i - 1] == h[i - 1] && u[i - 2] == h[i - 2];
      } else {
        var j := i - |h|;
        assert u[i] == t[j] && t[j].Paused?;
        assert u[i - 1] == t[j - 1] && u[i - 2] == t[j - 2];
      }
    }
  }

  lemma StopIsLastPrepend(h: seq<Event>, t: seq<Event>)
    requires NoStop(h) && StopIsLast(t)
    ensures StopIsLast(h + t)
  {
    var u := h + t;
    forall i | 0 <= i < |u| && u[i].StopCheck? && u[i].stop
      ensures i == |u| - 1
    {
      if i >= |h| {
        assert u[i] == t[i - |h|];
      }
    }
  }

  lemma ExitShownPrepend(h: seq<Event>, r: Final)
    requires ExitShown(r.trace, r)
    requires |h| > 0 && !h[|h| - 1].Iteration? && NoStop(h)
    ensures ExitShown(h + r.trace, r)
  {
    var t := r.trace;
    var u := h + t;
    if |t| == 0 {
      assert u == h && u[|u| - 1] == h[|h| - 1];
    } else {
      assert u[|u| - 1] == t[|t| - 1];
      if |t| == 1 {
        assert u[|u| - 2] == h[|h| - 1];
      } else {
        assert u[|u| - 2] == t[|t| - 2];
      }
    }
  }

  /** Prepending a group of events that is itself well ordered, starts a
      cycle, does not end with an iteration and does not stop keeps a run
      ordered. */
  lemma OrderedPrepend(h: seq<Event>, r: Final)
    requires Ordered(r)
    requires |h| > 0 && (h[0].Iteration? || h[0].StopCheck?) && !h[|h| - 1].Iteration?
    requires IterationsChecked(h, r.exit) && PausesAfterChecks(h) && NoStop(h)
    ensures Ordered(Prepend(h, r))
  {
    IterationsCheckedPrepend(h, r.trace, r.exit);
    PausesAfterChecksPrepend(h, r.trace);
    StopIsLastPrepend(h, r.trace);
    ExitShownPrepend(h, r);
  }

  lemma OrderedAfterWaitTick(k: nat, r: Final)
    requires Ordered(r)
    ensures Ordered(Prepend([StopCheck(k, false), WaitTick], r))
  {
    OrderedPrepend([StopCheck(k, false), WaitTick], r);
  }

  lemma OrderedAfterPause(k: nat, q: int, r: Final)
    requires Ordered(r)
    ensures Ordered(Prepend([Iteration(k), StopCheck(k + 1, false), Paused(q)], r))
  {
    OrderedPrepend([Iteration(k), StopCheck(k + 1, false), Paused(q)], r);
  }

  lemma EmptyRunOrdered(cs: Counters, exit: Exit)
    requires !exit.Stopped()
    ensures Ordered(Final(cs, exit, []))
  {
  }

  lemma FailedCheckOrdered(k: nat, cs: Counters)
    ensures Ordered(Final(cs, DispatchUnavailable, [Iteration(k)]))
  {
  }

  lemma CheckAfterIterationOrdered(k: nat, cs: Counters, exit: Exit, stop: bool)
    requires stop ==> exit == StoppedAfterIteration && cs.iterations == k + 1
    requires !stop ==> !exit.Stopped()
    ensures Ordered(Final(cs, exit, [Iteration(k), StopCheck(k + 1, stop)]))
  {
  }

  lemma CheckInWaitOrdered(k: nat, cs: Counters, exit: Exit, stop: bool)
    requires stop ==> exit == StoppedDuringWait && cs.iterations == k
    requires !stop ==> !exit.Stopped()
    ensures Ordered(Final(cs, exit, [StopCheck(k, stop)]))
  {
  }

  lemma {:induction false} CycleOrdered(cfg: Config, env: Env, c: Counters, p: nat, w: nat, fuel: nat)
    ensures Ordered(RunCycle(cfg, env, c, p, w, fuel))
    decreases fuel, 0
  {
    if fuel == 0 {
      EmptyRunOrdered(c, OutOfFuel);
    } else {
      if cfg.schedule.Some? {
        WaitOrdered(cfg, env, c, p, w, env.nextRun(c.iterations), fuel - 1);
      } else {
        IterationOrdered(cfg, env, c, p, w, fuel - 1);
      }
    }
  }

  lemma {:induction false} WaitOrdered(cfg: Config, env: Env, c: Counters, p: nat, w: nat, nextRun: int, fuel: nat)
    ensures Ordered(RunWait(cfg, env, c, p, w, nextRun, fuel))
    decreases fuel, 3
  {
    if nextRun - env.now(w) <= 0 {
      IterationOrdered(cfg, env, c, p, w + 1, fuel);
    } else {
      var probe := Poll(cfg, env.startMs, env.pcntl, env.poll(p), c);
      if probe.None? {
        EmptyRunOrdered(c, DispatchUnavailable);
      } else if probe.value.stop {
        CheckInWaitOrdered(c.iterations, probe.value.counters, StoppedDuringWait, true);
      } else if fuel == 0 {
        CheckInWaitOrdered(c.iterations, probe.value.counters, OutOfFuel, false);
      } else {
        var rest := RunWait(cfg, env, probe.value.counters, p + 1, w + 1, nextRun, fuel - 1);
        WaitOrdered(cfg, env, probe.value.counters, p + 1, w + 1, nextRun, fuel - 1);
        OrderedAfterWaitTick(c.iterations, rest);
      }
    }
  }

  /** The iterations that end the run: a failed dispatch, a stop, or a
      rejected pause. */
  lemma IterationEndOrdered(cfg: Config, env: Env, c: Counters, p: nat, w: nat, fuel: nat)
    requires var probe := Poll(cfg, env.startMs, env.pcntl, env.poll(p), AfterIteration(env, c));
             probe.None? || probe.value.stop || cfg.pause < 0
    ensures Ordered(RunIteration(cfg, env, c, p, w, fuel))
  {
    var c1 := AfterIteration(env, c);
    var probe := Poll(cfg, env.startMs, env.pcntl, env.poll(p), c1);
    if probe.None? {
      FailedCheckOrdered(c.iterations, c1);
    } else if probe.value.stop {
      CheckAfterIterationOrdered(c.iterations, probe.value.counters, StoppedAfterIteration, true);
    } else {
      CheckAfterIterationOrdered(c.iterations, probe.value.counters, InvalidPauseValue, false);
    }
  }

  lemma {:induction false} IterationOrdered(cfg: Config, env: Env, c: Counters, p: nat, w: nat, fuel: nat)
    ensures Ordered(RunIteration(cfg, env, c, p, w, fuel))
    decreases fuel, 2
  {
    var probe := Poll(cfg, env.startMs, env.pcntl, env.poll(p), AfterIteration(env, c));
    if probe.None? || probe.value.stop || cfg.pause < 0 {
      IterationEndOrdered(cfg, env, c, p, w, fuel);
    } else {
      PausedIteration(cfg, env, c, p, w, fuel, probe.value);
      PausedIterationOrdered(cfg, env, c.iterations, PauseAdded(probe.value.counters, cfg.pause), p + 1, w, fuel);
    }
  }

  /** A paused iteration's events before an ordered next cycle. */
  lemma {:induction false} PausedIterationOrdered(cfg: Config, env: Env, k: nat, c: Counters, p: nat, w: nat, fuel: nat)
    ensures Ordered(Prepend([Iteration(k), StopCheck(k + 1, false), Paused(cfg.pause)], RunCycle(cfg, env, c, p, w, fuel)))
    decreases fuel, 1
  {
    CycleOrdered(cfg, env, c, p, w, fuel);
    OrderedAfterPause(k, cfg.pause, RunCycle(cfg, env, c, p, w, fuel));
  }

  /** On the whole command: between the two hooks, every iteration is
      followed by the stop check that sees its increment, a pause follows
      only an iteration whose check did not stop (so none follows the final
      iteration), a check that stops is the last event of the loop, and the
      end of the loop shows how it exited. */
  lemma RunIsOrdered(opts: RawOptions, maxBytes: int, parse: string -> Option<CronExpression>, env: Env, fuel: nat)
    ensures var o := Daemon(opts, maxBytes, parse, env, fuel);
            o.Ran? ==>
              && |o.trace| >= (if o.exit.Stopped() then 2 else 1)
              && Ordered(Final(o.counters, o.exit,
                               o.trace[1..|o.trace| - (if o.exit.Stopped() then 1 else 0)]))
  {
    var built := BuildContext(opts, maxBytes, parse);
    if built.Ok? {
      var run := RunCycle(built.value, env, Initial(), 0, 0, fuel);
      CycleOrdered(built.value, env, Initial(), 0, 0, fuel);
      var o := Daemon(opts, maxBytes, parse, env, fuel);
      if o.Ran? {
        var tail := if run.exit.Stopped() then [AfterCycle] else [];
        assert o.exit == run.exit && o.counters == run.counters;
        assert o.trace == [BeforeCycle] + run.trace + tail;
        if o.exit.Stopped() {
          assert o.trace[1..|o.trace| - 1] == run.trace;
        } else {
          assert o.trace[1..|o.trace| - 0] == run.trace;
        }
      }
    }
  }

  // ---------------------------------------------------------------------------
  // Scenarios
  // ---------------------------------------------------------------------------

  /** Without a schedule, every cycle starts with an iteration, so a run with
      any fuel at all runs at least one. */
  lemma FirstIterationWithoutSchedule(cfg: Config, env: Env, c: Counters, p: nat, w: nat, fuel: nat)
    requires cfg.schedule.None? && fuel > 0
    ensures var r := RunCycle(cfg, env, c, p, w, fuel);
            && |r.trace| > 0 && r.trace[0] == Iteration(c.iterations)
            && r.counters.iterations >= c.iterations + 1
  {
  }

  /** On the whole command: without a schedule, a run that starts executes
      iteration 0 right after beforeCycle, before any stop check. */
  lemma AtLeastOneIteration(opts: RawOptions, maxBytes: int, parse: string -> Option<CronExpression>,
                            env: Env, fuel: nat)
    requires opts.schedule.None? && fuel > 0
    ensures var o := Daemon(opts, maxBytes, parse, env, fuel);
            o.Ran? ==> |o.trace| >= 2 && o.trace[1] == Iteration(0) && o.counters.iterations >= 1
  {
    var built := BuildContext(opts, maxBytes, parse);
    if built.Ok? {
      FirstIterationWithoutSchedule(built.value, env, Initial(), 0, 0, fuel);
    }
  }

  /** A stop requested during iteration k (by the iteration calling stop, or
      by a signal dispatched at the following check) does not cut the
      iteration short: it completes, is counted, and the loop stops at the
      check right after it, without a pause. */
  lemma StopRequestEndsAfterIteration(cfg: Config, env: Env, c: Counters, p: nat, w: nat, fuel: nat)
    requires !(env.pcntl.Loaded? && !env.pcntl.dispatchDefined)
    requires env.iterationStops(c.iterations) || (env.pcntl.Loaded? && env.poll(p).signal)
    ensures RunIteration(cfg, env, c, p, w, fuel)
              == Final(Counters(c.iterations + 1, c.totalPause, true), StoppedAfterIteration,
                       [Iteration(c.iterations), StopCheck(c.iterations + 1, true)])
  {
  }

  /** A stop check in the schedule wait that stops ends the loop before the
      pending iteration: the count is unchanged and no iteration or pause is
      recorded. */
  lemma WaitStopSkipsIteration(cfg: Config, env: Env, c: Counters, p: nat, w: nat, nextRun: int, fuel: nat)
    requires nextRun - env.now(w) > 0
    requires Poll(cfg, env.startMs, env.pcntl, env.poll(p), c).Some?
    requires Poll(cfg, env.startMs, env.pcntl, env.poll(p), c).value.stop
    ensures var r := RunWait(cfg, env, c, p, w, nextRun, fuel);
            && r.exit == StoppedDuringWait
            && r.counters.iterations == c.iterations && r.counters.totalPause == c.totalPause
            && r.trace == [StopCheck(c.iterations, true)]
  {
  }

  /** Nothing but the iterations limit stops the first n iterations. */
  ghost predicate NothingElseStops(cfg: Config, env: Env, n: nat)
  {
    && !(env.pcntl.Loaded? && !env.pcntl.dispatchDefined)
    && forall k: nat :: k < n ==>
         && !env.iterationStops(k)
         && !(env.pcntl.Loaded? && env.poll(k).signal)
         && (cfg.timeLimit.Some? ==> ElapsedMs(env.startMs, env.poll(k).nowMs) < cfg.timeLimit.value * 1000)
         && (cfg.memoryLimit != -1 ==> env.poll(k).memoryUsage < cfg.memoryLimit)
  }

  /** The events of iterations k..n-1 under an iterations limit n with pause q. */
  function LimitedTrace(k: nat, n: nat, q: int): (r: seq<Event>)
    requires k < n
    ensures |r| == 3 * (n - k) - 1
    ensures r[0] == Iteration(k)
    ensures r[|r| - 2] == Iteration(n - 1) && r[|r| - 1] == StopCheck(n, true)
    ensures Iterations(r) == n - k && Pauses(r) == n - k - 1
    decreases n - k
  {
    if k + 1 == n then
      CountsOfGroups(Iteration(k), StopCheck(n, true), WaitTick, []);
      [Iteration(k), StopCheck(n, true)]
    else
      var rest := LimitedTrace(k + 1, n, q);
      CountsOfGroups(Iteration(k), StopCheck(k + 1, false), Paused(q), rest);
      [Iteration(k), StopCheck(k + 1, false), Paused(q)] + rest
  }

  /** One cycle under an iterations limit n, when nothing else stops the run:
      the check after iteration k stops exactly when k + 1 reaches n. */
  lemma LimitedStep(cfg: Config, env: Env, k: nat, n: nat, tp: int, w: nat, fuel: nat)
    requires cfg.schedule.None? && cfg.iterationsLimit == Some(n) && cfg.pause >= 0
    requires k < n && fuel > 0
    requires NothingElseStops(cfg, env, n)
    ensures k + 1 == n ==>
              RunCycle(cfg, env, Counters(k, tp, false), k, w, fuel)
                == Final(Counters(n, tp, false), StoppedAfterIteration, [Iteration(k), StopCheck(n, true)])
    ensures k + 1 < n ==>
              RunCycle(cfg, env, Counters(k, tp, false), k, w, fuel)
                == Prepend([Iteration(k), StopCheck(k + 1, false), Paused(cfg.pause)],
                           RunCycle(cfg, env, Counters(k + 1, tp + cfg.pause, false), k + 1, w, fuel - 1))
  {
    var c := Counters(k, tp, false);
    var c1 := Counters(k + 1, tp, false);
    assert AfterIteration(env, c) == c1;
    assert Poll(cfg, env.startMs, env.pcntl, env.poll(k), c1) == Some(Probe(c1, k + 1 >= n));
    if k + 1 < n {
      PausedIteration(cfg, env, c, k, w, fuel - 1, Probe(c1, false));
    }
  }

  lemma {:induction false} LimitedRun(cfg: Config, env: Env, k: nat, n: nat, tp: int, w: nat, fuel: nat)
    requires cfg.schedule.None? && cfg.iterationsLimit == Some(n) && cfg.pause >= 0
    requires k < n && fuel >= n - k
    requires NothingElseStops(cfg, env, n)
    ensures var r := RunCycle(cfg, env, Counters(k, tp, false), k, w, fuel);
            && r.exit == StoppedAfterIteration && r.trace == LimitedTrace(k, n, cfg.pause)
            && r.counters.iterations == n && !r.counters.stopAsap
    decreases n - k
  {
    LimitedStep(cfg, env, k, n, tp, w, fuel);
    if k + 1 < n {
      var rest := RunCycle(cfg, env, Counters(k + 1, tp + cfg.pause, false), k + 1, w, fuel - 1);
      LimitedRun(cfg, env, k + 1, n, tp + cfg.pause, w, fuel - 1);
      LimitedPrepend(k, n, cfg.pause, rest);
    }
  }

  lemma LimitedPrepend(k: nat, n: nat, q: int, rest: Final)
    requires k + 1 < n
    requires rest.exit == StoppedAfterIteration && rest.trace == LimitedTrace(k + 1, n, q)
    ensures Prepend([Iteration(k), StopCheck(k + 1, false), Paused(q)], rest).trace == LimitedTrace(k, n, q)
  {
  }

  /** With no schedule and an iterations limit n, when nothing else stops the
      run: executeIteration runs exactly n times, the loop stops at the check
      right after the n-th increment, pause is called n-1 times, the total
      pause is pause*(n-1), and the summary shows it exactly when nonzero. */
  lemma RunsExactlyIterationsLimit(opts: RawOptions, maxBytes: int, parse: string -> Option<CronExpression>,
                                   env: Env, fuel: nat, n: nat)
    requires BuildContext(opts, maxBytes, parse).Ok?
    requires opts.schedule.None? && opts.iterations == Some(n)
    requires !(env.pcntl.Loaded? && !env.pcntl.signalDefined)
    requires NothingElseStops(BuildContext(opts, maxBytes, parse).value, env, n)
    requires fuel >= n
    ensures n > 0
    ensures var o := Daemon(opts, maxBytes, parse, env, fuel);
            && o.Ran? && o.exit == StoppedAfterIteration
            && o.counters == Counters(n, opts.pause * (n - 1), false)
            && o.trace == [BeforeCycle] + LimitedTrace(0, n, opts.pause) + [AfterCycle]
            && Iterations(o.trace) == n && Pauses(o.trace) == n - 1
            && (PauseTime(opts.pause * (n - 1)) in o.summary <==> opts.pause * (n - 1) != 0)
  {
    var cfg := BuildContext(opts, maxBytes, parse).value;
    var t := LimitedTrace(0, n, opts.pause);
    LimitedRun(cfg, env, 0, n, 0, 0, fuel);
    CycleCounts(cfg, env, Initial(), 0, 0, fuel);
    assert RunCycle(cfg, env, Initial(), 0, 0, fuel).counters.totalPause == opts.pause * (n - 1);
    CountsAppend([BeforeCycle], t);
    CountsAppend([BeforeCycle] + t, [AfterCycle]);
    GroupCounts(0, 0, true, 0);
    assert Iterations([BeforeCycle]) == 0 && Pauses([BeforeCycle]) == 0 by {
      assert [BeforeCycle][1..] == [];
    }
    assert Iterations([AfterCycle]) == 0 && Pauses([AfterCycle]) == 0 by {
      assert [AfterCycle][1..] == [];
    }
  }
}
